/**
 * The project modal: which media element it shows, whether the project
 * link button is visible, and when it opens and closes.
 */
module Modal {
  import opened Options

  /** `s.endsWith(suffix)`, compared character by character (no case folding). */
  predicate EndsWith(s: string, suffix: string) {
    |suffix| <= |s| && s[|s| - |suffix|..] == suffix
  }

  /** EndsWith agrees with "s is something followed by suffix", in both directions. */
  lemma EndsWithConcat(p: string, s: string, suffix: string)
    ensures EndsWith(p + suffix, suffix)
    ensures EndsWith(s, suffix) ==> s == s[..|s| - |suffix|] + suffix
  {
    assert (p + suffix)[|p|..] == suffix;
  }

  /** A panel's media is played as a video exactly for a `.mp4` or `.webm` source. */
  predicate IsVideo(src: string)
    ensures IsVideo(src) ==> |src| >= 4 && src[|src| - 1] in {'4', 'm'}
  {
    EndsWith(src, ".mp4") || EndsWith(src, ".webm")
  }

  lemma VideoExtensions(name: string)
    ensures IsVideo(name + ".mp4") && IsVideo(name + ".webm")
    ensures !IsVideo(name + ".png") && !IsVideo(name + ".MP4")
  {
    EndsWithConcat(name, "", ".mp4");
    EndsWithConcat(name, "", ".webm");
    var png := name + ".png";
    assert png[|png| - 1] == 'g';
    var upper := name + ".MP4";
    assert upper[|upper| - 1] == '4' && upper[|upper| - 2] == 'P';
  }

  /** The project link button is shown exactly for a link that is present, non-empty and not "#". */
  predicate ShowsProjectLink(link: Option<string>)
    ensures ShowsProjectLink(link) ==> link.Some? && (|link.value| >= 2 || (|link.value| == 1 && link.value[0] != '#'))
  {
    link.Some? && link.value != "" && link.value != "#"
  }

  lemma ProjectLinkCases(link: string)
    ensures !ShowsProjectLink(None) && !ShowsProjectLink(Some("")) && !ShowsProjectLink(Some("#"))
    ensures ShowsProjectLink(Some(link)) <==> link != "" && link != "#"
  {
  }

  /** The data attributes of a project panel; None for an attribute the panel does not carry. */
  datatype Panel = Panel(image: Option<string>, title: string, description: string, link: Option<string>)

  /** The element in the modal's image slot. */
  datatype Media = Image(src: string) | Video(src: string)

  /** The media element the modal shows for a source. */
  function MediaFor(src: string): (m: Media)
    ensures m.src == src
    ensures m.Video? <==> IsVideo(src)
  {
    if IsVideo(src) then Video(src) else Image(src)
  }

  /** The Escape key closes the modal, and only an open one. */
  function OpenAfterKey(open: bool, key: string): (r: bool)
    ensures r <==> open && key != "Escape"
    ensures !open ==> !r
  {
    if key == "Escape" && open then false else open
  }

  class ModalView {
    /** The modal and its backdrop are visible (no `hidden` class). */
    var open: bool
    /** The page body's scrolling is locked (`overflow: hidden`). */
    var scrollLocked: bool
    var media: Media
    var title: string
    var description: string
    var linkShown: bool
    var linkHref: string

    /** The body is locked exactly while the modal is open. */
    predicate Valid()
      reads this
    {
      scrollLocked == open
    }

    /** The page as loaded: modal hidden, an empty image. */
    constructor ()
      ensures Valid() && !open && media == Image("") && !linkShown
    {
      open := false;
      scrollLocked := false;
      media := Image("");
      title := "";
      description := "";
      linkShown := false;
      linkHref := "";
    }

    /**
     * Click on a panel: show its media, texts and (maybe) its link, and open.
     * Without a `data-image` the suffix test throws before anything is
     * updated, so the click changes nothing.
     */
    method OpenModal(p: Panel)
      requires Valid()
      modifies this
      ensures Valid()
      ensures p.image.None? ==> unchanged(this)
      ensures p.image.Some? ==> open && media == MediaFor(p.image.value) && title == p.title && description == p.description
      ensures p.image.Some? ==> linkShown == ShowsProjectLink(p.link)
      ensures p.image.Some? ==> linkHref == if linkShown then p.link.value else old(linkHref)
    {
      if p.image.None? {
        return;
      }
      media := MediaFor(p.image.value);
      title := p.title;
      description := p.description;
      if ShowsProjectLink(p.link) {
        linkHref := p.link.value;
        linkShown := true;
      } else {
        linkShown := false;
      }
      open := true;
      scrollLocked := true;
    }

    /** Close button, backdrop click, or Escape. */
    method CloseModal()
      modifies this`open, this`scrollLocked
      ensures Valid() && !open
    {
      open := false;
      scrollLocked := false;
    }

    /** A key press: Escape closes an open modal; anything else changes nothing. */
    method KeyDown(key: string)
      requires Valid()
      modifies this`open, this`scrollLocked
      ensures Valid()
      ensures open == OpenAfterKey(old(open), key)
    {
      if key == "Escape" && open {
        CloseModal();
      }
    }
  }
}
