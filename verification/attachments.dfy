/** Locating the image on a fetched message (src/main.rs:36-51): the first
    attachment, in list order, whose width is known. */
module Attachments {
  import opened Wrappers
  import opened Discord

  /** What the resolver hands back: the image's URL and whom to credit. */
  datatype ImageRef = ImageRef(url: string, author: User)

  /** The source's test for "this attachment is an image". */
  predicate IsImage(a: Attachment) {
    a.width.Some?
  }

  /** Index of the first image in `attachments`, if any. */
  function FirstImageIndex(attachments: seq<Attachment>): (r: Option<nat>)
    ensures r.Some? ==> r.value < |attachments| && IsImage(attachments[r.value])
    ensures r.Some? ==> forall j :: 0 <= j < r.value ==> !IsImage(attachments[j])
    ensures r.None? <==> forall j :: 0 <= j < |attachments| ==> !IsImage(attachments[j])
    decreases |attachments|
  {
    if |attachments| == 0 then None
    else if IsImage(attachments[0]) then Some(0)
    else
      match FirstImageIndex(attachments[1..])
      case None => None
      case Some(i) => Some(i + 1)
  }

  /** The resolver on an already-fetched message; a failed fetch is `None`. */
  function ImageUrlAndAuthor(fetched: Option<Message>): (r: Option<ImageRef>)
    ensures fetched.None? ==> r.None?
    ensures r.Some? <==>
              fetched.Some? &&
              exists i :: 0 <= i < |fetched.value.attachments| && IsImage(fetched.value.attachments[i])
    ensures r.Some? ==>
              r.value.author == fetched.value.author &&
              exists i :: 0 <= i < |fetched.value.attachments| &&
                          IsImage(fetched.value.attachments[i]) &&
                          r.value.url == fetched.value.attachments[i].url &&
                          forall j :: 0 <= j < i ==> !IsImage(fetched.value.attachments[j])
  {
    match fetched
    case None => None
    case Some(msg) =>
      match FirstImageIndex(msg.attachments)
      case None => None
      case Some(i) => Some(ImageRef(msg.attachments[i].url, msg.author))
  }

  /** The resolver's loop as the source writes it: walk the attachments and
      return at the first one with a width. */
  method ScanAttachments(fetched: Option<Message>) returns (r: Option<ImageRef>)
    ensures r == ImageUrlAndAuthor(fetched)
  {
    if fetched.None? {
      return None;
    }
    var msg := fetched.value;
    var k := 0;
    while k < |msg.attachments|
      invariant 0 <= k <= |msg.attachments|
      invariant forall j :: 0 <= j < k ==> !IsImage(msg.attachments[j])
    {
      if msg.attachments[k].width.Some? {
        FirstImageIsUnique(msg.attachments, k);
        return Some(ImageRef(msg.attachments[k].url, msg.author));
      }
      k := k + 1;
    }
    return None;
  }

  /** An image with no image before it is the one `FirstImageIndex` finds. */
  lemma {:induction false} FirstImageIsUnique(attachments: seq<Attachment>, i: nat)
    requires i < |attachments| && IsImage(attachments[i])
    requires forall j :: 0 <= j < i ==> !IsImage(attachments[j])
    ensures FirstImageIndex(attachments) == Some(i)
  {
    if i > 0 {
      FirstImageIsUnique(attachments[1..], i - 1);
    }
  }

  /** Of a file without a width followed by two images, the first image
      is chosen. */
  lemma SecondAttachmentChosen(author: User)
    ensures
      var none := Attachment("https://host/a/notes.txt", "notes.txt", None, None);
      var wide := Attachment("https://host/b/wide.png", "wide.png", Some(800), Some(600));
      var small := Attachment("https://host/c/small.png", "small.png", Some(400), Some(300));
      ImageUrlAndAuthor(Some(Message(1, 2, author, [none, wide, small])))
        == Some(ImageRef("https://host/b/wide.png", author))
  {
  }
}
