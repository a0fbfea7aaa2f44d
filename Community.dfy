/**
 * The community feed's composer and post times (`pages/community.tsx`):
 * the payload a post submits, the image reset, the Share button's state and
 * the relative-time caption of a post. Times are integer milliseconds since
 * the epoch and the current time is a parameter.
 */
module Community {
  import opened Wrappers
  import Text

  /** A file picked in the file input, by identity. */
  type FileRef = nat

  /** The body of a post request: the text and, optionally, the image as a data URL. */
  datatype PostPayload = PostPayload(content: string, imageData: Option<string>)

  class Composer {
    /** `newPost`, the text area's contents. */
    var newPost: string
    var selectedImage: Option<FileRef>
    /** The data URL the file reader produced for the selected image. */
    var imagePreview: Option<string>

    constructor ()
      ensures newPost == "" && selectedImage == None && imagePreview == None
    {
      newPost := "";
      selectedImage := None;
      imagePreview := None;
    }

    method SetText(text: string)
      modifies this
      ensures newPost == text
      ensures selectedImage == old(selectedImage) && imagePreview == old(imagePreview)
    {
      newPost := text;
    }

    /** `handleImageSelect`: picking a file records it; its preview arrives later. */
    method SelectImage(file: Option<FileRef>)
      modifies this
      ensures selectedImage == (if file.Some? then file else old(selectedImage))
      ensures newPost == old(newPost) && imagePreview == old(imagePreview)
    {
      if file.Some? {
        selectedImage := file;
      }
    }

    /** The file reader's `onload`: the preview becomes the data URL. */
    method PreviewLoaded(dataUrl: string)
      modifies this
      ensures imagePreview == Some(dataUrl)
      ensures newPost == old(newPost) && selectedImage == old(selectedImage)
    {
      imagePreview := Some(dataUrl);
    }

    /**
     * `handleCreatePost`: nothing for blank text; otherwise the trimmed text,
     * with the preview attached exactly when a file is selected and its
     * preview is a non-empty string.
     */
    function CreatePost(): (r: Option<PostPayload>)
      reads this
      ensures r.None? <==> Text.IsBlank(newPost)
      ensures r.Some? ==> r.value.content == Text.Trim(newPost) && r.value.content != ""
      ensures r.Some? ==>
        (r.value.imageData.Some? <==> selectedImage.Some? && imagePreview.Some? && imagePreview.value != "")
      ensures r.Some? && r.value.imageData.Some? ==> r.value.imageData == imagePreview
    {
      if Text.IsBlank(newPost) then None
      else
        var image := if selectedImage.Some? && imagePreview.Some? && imagePreview.value != "" then imagePreview else None;
        Some(PostPayload(Text.Trim(newPost), image))
    }

    /** `handleRemoveImage`: the selection and the preview are both cleared; the text stays. */
    method RemoveImage()
      modifies this
      ensures selectedImage == None && imagePreview == None
      ensures newPost == old(newPost)
    {
      selectedImage := None;
      imagePreview := None;
    }

    /** A successful post clears the text and the image. */
    method PostSucceeded()
      modifies this
      ensures newPost == "" && selectedImage == None && imagePreview == None
    {
      newPost := "";
      RemoveImage();
    }
  }

  /** The Share button's `disabled`: blank text or a post in flight. */
  predicate ShareDisabled(text: string, pending: bool)
  {
    Text.IsBlank(text) || pending
  }

  /**
   * An enabled Share button always submits, and after a removed image or a
   * successful post nothing is attached to the next payload.
   */
  lemma EnabledShareSubmits(c: Composer, pending: bool)
    requires !ShareDisabled(c.newPost, pending)
    ensures c.CreatePost().Some?
    ensures c.selectedImage.None? || c.imagePreview.None? ==> c.CreatePost().value.imageData.None?
  {
  }

  const MsPerHour := 1000 * 60 * 60

  /** The caption buckets of `formatDate`. */
  datatype Ago = JustNow | HoursAgo(hours: nat) | Yesterday | OnDate(dateMs: int)

  /** `Math.floor((now - date) / 3600000)`: whole hours elapsed, rounded down (negative for the future). */
  function HoursBetween(nowMs: int, dateMs: int): (r: int)
    ensures r * MsPerHour <= nowMs - dateMs < (r + 1) * MsPerHour
  {
    (nowMs - dateMs) / MsPerHour
  }

  /** `formatDate`: under one hour (the future included) "Just now", under a day "{h}h ago", under two "Yesterday". */
  function FormatDate(nowMs: int, dateMs: int): (r: Ago)
    ensures r == JustNow <==> nowMs - dateMs < MsPerHour
    ensures r.HoursAgo? <==> MsPerHour <= nowMs - dateMs < 24 * MsPerHour
    ensures r.HoursAgo? ==> 1 <= r.hours < 24 && r.hours == HoursBetween(nowMs, dateMs)
    ensures r == Yesterday <==> 24 * MsPerHour <= nowMs - dateMs < 48 * MsPerHour
    ensures r.OnDate? <==> nowMs - dateMs >= 48 * MsPerHour
    ensures r.OnDate? ==> r.dateMs == dateMs
  {
    var h := HoursBetween(nowMs, dateMs);
    if h < 1 then JustNow
    else if h < 24 then HoursAgo(h)
    else if h < 48 then Yesterday
    else OnDate(dateMs)
  }

  /** The caption text; a locale-formatted date is not part of this model (None). */
  function Caption(a: Ago): (r: Option<string>)
    ensures r.None? <==> a.OnDate?
    ensures a.JustNow? ==> r == Some("Just now")
    ensures a.Yesterday? ==> r == Some("Yesterday")
    ensures a.HoursAgo? ==> r == Some(Text.DecimalString(a.hours) + "h ago")
  {
    match a
    case JustNow => Some("Just now")
    case HoursAgo(h) => Some(Text.DecimalString(h) + "h ago")
    case Yesterday => Some("Yesterday")
    case OnDate(_) => None
  }

  /** Between one hour and one day, the caption spells the whole hours elapsed in decimal. */
  lemma HoursCaption(nowMs: int, dateMs: int)
    requires MsPerHour <= nowMs - dateMs < 24 * MsPerHour
    ensures var digits := Text.DecimalString(HoursBetween(nowMs, dateMs));
      && Caption(FormatDate(nowMs, dateMs)) == Some(digits + "h ago")
      && Text.DigitsValue(digits) == HoursBetween(nowMs, dateMs)
      && 1 <= |digits| <= 2
  {
  }

  function AgeRank(a: Ago): nat
  {
    match a
    case JustNow => 0
    case HoursAgo(_) => 1
    case Yesterday => 2
    case OnDate(_) => 3
  }

  /** As time passes a post's caption only ages: the bucket and the hour count never go back. */
  lemma CaptionsAge(now1: int, now2: int, dateMs: int)
    requires now1 <= now2
    ensures AgeRank(FormatDate(now1, dateMs)) <= AgeRank(FormatDate(now2, dateMs))
    ensures FormatDate(now1, dateMs).HoursAgo? && FormatDate(now2, dateMs).HoursAgo? ==>
      FormatDate(now1, dateMs).hours <= FormatDate(now2, dateMs).hours
  {
  }

  /** A post stamped in the future reads "Just now". */
  lemma FutureIsJustNow(nowMs: int, dateMs: int)
    requires dateMs >= nowMs
    ensures Caption(FormatDate(nowMs, dateMs)) == Some("Just now")
  {
  }
}
