/** The navigation bar: which link is marked active when a section comes into view. */
module Navigation {
  import opened Options

  /** A nav link: its `href` attribute (None when absent) and whether it has the `active` class. */
  datatype Link = Link(href: Option<string>, active: bool)

  /** `#${id}` for the section's `id` attribute; a missing id renders as "null". */
  function SectionHref(id: Option<string>): (h: string)
    ensures |h| >= 1 && h[0] == '#'
    ensures id.Some? ==> h[1..] == id.value
    ensures id.None? ==> h == "#null"
  {
    "#" + (if id.Some? then id.value else "null")
  }

  /** The links after the section `id` comes into view: each is active exactly when its href names that section. */
  function Retoggled(links: seq<Link>, id: Option<string>): (r: seq<Link>)
    ensures |r| == |links|
    ensures forall k :: 0 <= k < |r| ==>
              r[k].href == links[k].href && (r[k].active <==> links[k].href == Some(SectionHref(id)))
  {
    if links == [] then []
    else [links[0].(active := links[0].href == Some(SectionHref(id)))] + Retoggled(links[1..], id)
  }

  function ActiveCount(links: seq<Link>): nat {
    if links == [] then 0 else (if links[0].active then 1 else 0) + ActiveCount(links[1..])
  }

  function HrefCount(links: seq<Link>, h: Option<string>): nat {
    if links == [] then 0 else (if links[0].href == h then 1 else 0) + HrefCount(links[1..], h)
  }

  /** After the update as many links are active as carry the section's href. */
  lemma {:induction false} ActiveCountAfterRetoggle(links: seq<Link>, id: Option<string>)
    ensures ActiveCount(Retoggled(links, id)) == HrefCount(links, Some(SectionHref(id)))
  {
    if links != [] {
      ActiveCountAfterRetoggle(links[1..], id);
      assert Retoggled(links, id)[1..] == Retoggled(links[1..], id);
    }
  }

  /** No href occurs twice among the links. */
  predicate DistinctHrefs(links: seq<Link>) {
    forall i, j :: 0 <= i < j < |links| ==> links[i].href != links[j].href
  }

  lemma {:induction false} DistinctHrefCount(links: seq<Link>, h: Option<string>)
    requires DistinctHrefs(links)
    ensures HrefCount(links, h) <= 1
    ensures HrefCount(links, h) == 1 <==> exists k :: 0 <= k < |links| && links[k].href == h
  {
    if links != [] {
      DistinctHrefCount(links[1..], h);
      if links[0].href == h {
        assert forall k :: 0 <= k < |links[1..]| ==> links[1..][k].href != h by {
          forall k | 0 <= k < |links[1..]| ensures links[1..][k].href != h {
            assert links[1..][k] == links[k + 1];
          }
        }
      } else if exists k :: 0 <= k < |links| && links[k].href == h {
        var k :| 0 <= k < |links| && links[k].href == h;
        assert links[1..][k - 1] == links[k];
      }
    }
  }

  /** With distinct hrefs at most one link is active, and exactly one when some link names the section. */
  lemma AtMostOneActive(links: seq<Link>, id: Option<string>)
    requires DistinctHrefs(links)
    ensures ActiveCount(Retoggled(links, id)) <= 1
    ensures ActiveCount(Retoggled(links, id)) == 1 <==>
              exists k :: 0 <= k < |links| && links[k].href == Some(SectionHref(id))
  {
    ActiveCountAfterRetoggle(links, id);
    DistinctHrefCount(links, Some(SectionHref(id)));
  }

  /** The loop over the links, toggling each one's `active` class in place. */
  method SetActiveLinks(links: array<Link>, id: Option<string>)
    modifies links
    ensures links[..] == Retoggled(old(links[..]), id)
  {
    var target := SectionHref(id);
    var i := 0;
    while i < links.Length
      invariant 0 <= i <= links.Length
      invariant forall k :: 0 <= k < i ==> links[k] == old(links[k]).(active := old(links[k]).href == Some(target))
      invariant forall k :: i <= k < links.Length ==> links[k] == old(links[k])
    {
      links[i] := links[i].(active := links[i].href == Some(target));
      i := i + 1;
    }
  }
}
