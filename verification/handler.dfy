/** The reaction handler (src/main.rs:60-115) as a pure function from the
    event and the outcomes of the platform calls to the effects it performs
    and how it ends. Every `unwrap()` that fails, and the `panic!()` arm,
    end the run as `Panicked`. */
module Handler {
  import opened Wrappers
  import opened Discord
  import opened Rotation
  import opened Attachments
  import opened Naming

  /** A container format, as the image library infers it from a file name. */
  datatype ImageFormat = ImageFormat(tag: string)

  /** The externally visible steps, in the order the handler takes them. */
  datatype Effect =
    | FetchMessage(channel: ChannelId, message: MessageId)
    | BroadcastTyping(channel: ChannelId)
    | Download(url: string)
    | Decode(format: ImageFormat)
    | RotateImage(turn: Turn)
    | Encode(format: ImageFormat)
    | SendFile(channel: ChannelId, fileName: string, caption: string, notifyUsers: bool)

  /** Which `unwrap()` (or the `panic!()`) aborted the run. */
  datatype Failure =
    | TypingFailed
    | UrlHasNoSlash
    | UnknownFormat
    | RequestFailed
    | BodyFailed
    | DecodeFailed
    | UnexpectedAngle(angle: int)
    | EncodeFailed
    | SendFailed

  datatype Status = Finished | Panicked(failure: Failure)

  datatype Run = Run(effects: seq<Effect>, status: Status)

  /** How each call outside the handler turns out for this one event:
      the fetched message (`None` when the fetch failed), whether each
      fallible step succeeds, and the library's format detection. */
  datatype Platform = Platform(
    fetched: Option<Message>,
    typingOk: bool,
    formatFromPath: string -> Option<ImageFormat>,
    requestOk: bool,
    bodyOk: bool,
    decodeOk: bool,
    encodeOk: bool,
    sendOk: bool)

  /** The effects after the fetch of a run in which nothing fails. */
  function Repost(channel: ChannelId, image: ImageRef, name: string,
                  format: ImageFormat, turn: Turn): seq<Effect>
  {
    [ BroadcastTyping(channel),
      Download(image.url),
      Decode(format),
      RotateImage(turn),
      Encode(format),
      SendFile(channel, RotatedName(name), Caption(image.author.id), false) ]
  }

  /** The handler entry point: an unrecognised emoji does nothing at all. */
  function ReactionAdd(reaction: Reaction, platform: Platform): (run: Run)
    ensures run.effects == [] <==> GetRotation(reaction).None?
    ensures run.effects == [] ==> run.status == Finished
    ensures !(run.status.Panicked? && run.status.failure.UnexpectedAngle?)
  {
    match GetRotation(reaction)
    case None => Run([], Finished)
    case Some(angle) => Recognised(reaction, angle, platform)
  }

  /** A recognised emoji: fetch the message and look for its image
      (src/main.rs:62-64); without one, stop there. */
  function Recognised(reaction: Reaction, angle: int, platform: Platform): (run: Run)
    ensures |run.effects| > 0 && run.effects[0] == FetchMessage(reaction.channel, reaction.message)
    ensures angle in Angles ==> !(run.status.Panicked? && run.status.failure.UnexpectedAngle?)
  {
    var fetch := [FetchMessage(reaction.channel, reaction.message)];
    match ImageUrlAndAuthor(platform.fetched)
    case None => Run(fetch, Finished)
    case Some(image) => RotateAndRepost(fetch, reaction.channel, angle, image, platform)
  }

  /** Once the image is found: the typing indicator and the file name and
      format (src/main.rs:65-73), then `Transform`. */
  function RotateAndRepost(done: seq<Effect>, channel: ChannelId, angle: int,
                           image: ImageRef, platform: Platform): (run: Run)
    ensures |run.effects| > |done| && run.effects[..|done|] == done
    ensures angle in Angles ==> !(run.status.Panicked? && run.status.failure.UnexpectedAngle?)
  {
    var typing := done + [BroadcastTyping(channel)];
    if !platform.typingOk then Run(typing, Panicked(TypingFailed))
    else
      match ImageName(image.url)
      case Err(_) => Run(typing, Panicked(UrlHasNoSlash))
      case Ok(name) =>
        match platform.formatFromPath(name)
        case None => Run(typing, Panicked(UnknownFormat))
        case Some(format) => Transform(typing, channel, angle, image, name, format, platform)
  }

  /** Download, decode, rotate, encode and upload (src/main.rs:75-112). */
  function Transform(done: seq<Effect>, channel: ChannelId, angle: int, image: ImageRef,
                     name: string, format: ImageFormat, platform: Platform): (run: Run)
    ensures |run.effects| > |done| && run.effects[..|done|] == done
    ensures angle in Angles ==> !(run.status.Panicked? && run.status.failure.UnexpectedAngle?)
  {
    var download := done + [Download(image.url)];
    if !platform.requestOk then Run(download, Panicked(RequestFailed))
    else if !platform.bodyOk then Run(download, Panicked(BodyFailed))
    else
      var decode := download + [Decode(format)];
      if !platform.decodeOk then Run(decode, Panicked(DecodeFailed))
      else
        match SelectTurn(angle)
        case None => Run(decode, Panicked(UnexpectedAngle(angle)))
        case Some(turn) =>
          var encode := decode + [RotateImage(turn), Encode(format)];
          if !platform.encodeOk then Run(encode, Panicked(EncodeFailed))
          else
            var send := encode + [SendFile(channel, RotatedName(name), Caption(image.author.id), false)];
            Run(send, if platform.sendOk then Finished else Panicked(SendFailed))
  }

  /** True when every step between finding the image and uploading it
      succeeds: typing indicator, name and format, download, decoding and
      encoding. */
  predicate ReachesUpload(image: ImageRef, platform: Platform) {
    && platform.typingOk
    && ImageName(image.url).Ok?
    && platform.formatFromPath(ImageName(image.url).value).Some?
    && platform.requestOk && platform.bodyOk && platform.decodeOk && platform.encodeOk
  }

  /** `Transform` extends what was done with a prefix of the last five
      effects of `Repost`, all of them exactly when the download, decoding
      and encoding succeed. */
  lemma TransformFollowsPipeline(done: seq<Effect>, channel: ChannelId, angle: int, image: ImageRef,
                                 name: string, format: ImageFormat, platform: Platform)
    requires angle in Angles
    ensures
      var run := Transform(done, channel, angle, image, name, format, platform);
      var n := |run.effects| - |done|;
      && 1 <= n <= 5
      && run.effects == done + Repost(channel, image, name, format, SelectTurn(angle).value)[1..][..n]
      && (n == 5 <==> platform.requestOk && platform.bodyOk && platform.decodeOk && platform.encodeOk)
      && (n < 5 ==> run.status.Panicked?)
      && (n == 5 ==> (run.status == Finished <==> platform.sendOk))
  {
    var tail := Repost(channel, image, name, format, SelectTurn(angle).value)[1..];
    var run := Transform(done, channel, angle, image, name, format, platform);
    if !platform.requestOk || !platform.bodyOk {
      assert run.effects == done + tail[..1];
    } else if !platform.decodeOk {
      assert run.effects == done + tail[..2];
    } else if !platform.encodeOk {
      assert run.effects == done + tail[..4];
    } else {
      assert run.effects == done + tail[..5];
    }
  }

  /** `RotateAndRepost` extends what was done with a prefix of `Repost`:
      only the typing indicator when the name or format cannot be derived,
      all of it exactly when every step before the upload succeeds. */
  lemma RepostFollowsPipeline(done: seq<Effect>, channel: ChannelId, angle: int,
                              image: ImageRef, platform: Platform)
    requires angle in Angles
    ensures
      var run := RotateAndRepost(done, channel, angle, image, platform);
      var n := |run.effects| - |done|;
      && 1 <= n <= 6
      && run.effects[..|done|] == done
      && run.effects[|done|] == BroadcastTyping(channel)
      && (ImageName(image.url).Ok? && platform.formatFromPath(ImageName(image.url).value).Some? ==>
            var name := ImageName(image.url).value;
            var format := platform.formatFromPath(name).value;
            run.effects[|done|..] == Repost(channel, image, name, format, SelectTurn(angle).value)[..n])
      && (ImageName(image.url).Err? || platform.formatFromPath(ImageName(image.url).value).None? ==> n == 1)
      && (n == 6 <==> ReachesUpload(image, platform))
      && (n < 6 ==> run.status.Panicked?)
      && (n == 6 ==> (run.status == Finished <==> platform.sendOk))
  {
    if platform.typingOk && ImageName(image.url).Ok? && platform.formatFromPath(ImageName(image.url).value).Some? {
      var name := ImageName(image.url).value;
      RepostReachesTransform(done, channel, angle, image, name, platform.formatFromPath(name).value, platform);
    } else {
      var run := RotateAndRepost(done, channel, angle, image, platform);
      assert run.effects == done + [BroadcastTyping(channel)];
    }
  }

  /** `RotateAndRepost` once the typing indicator, the name and the format
      succeed: the typing indicator followed by `Transform`'s prefix. */
  lemma RepostReachesTransform(done: seq<Effect>, channel: ChannelId, angle: int, image: ImageRef,
                               name: string, format: ImageFormat, platform: Platform)
    requires angle in Angles
    requires platform.typingOk && ImageName(image.url) == Ok(name)
    requires platform.formatFromPath(name) == Some(format)
    ensures
      var run := RotateAndRepost(done, channel, angle, image, platform);
      var n := |run.effects| - |done|;
      && 2 <= n <= 6
      && run.effects == done + Repost(channel, image, name, format, SelectTurn(angle).value)[..n]
      && (n == 6 <==> platform.requestOk && platform.bodyOk && platform.decodeOk && platform.encodeOk)
      && (n < 6 ==> run.status.Panicked?)
      && (n == 6 ==> (run.status == Finished <==> platform.sendOk))
  {
    var run := RotateAndRepost(done, channel, angle, image, platform);
    var tail := Repost(channel, image, name, format, SelectTurn(angle).value);
    assert run == Transform(done + [BroadcastTyping(channel)], channel, angle, image, name, format, platform);
    TransformFollowsPipeline(done + [BroadcastTyping(channel)], channel, angle, image, name, format, platform);
    PrependHead(done, tail, |run.effects| - |done|);
  }

  /** Appending the head of `tail` and then a prefix of the rest is
      appending a prefix of `tail`. */
  lemma PrependHead<T>(done: seq<T>, tail: seq<T>, n: nat)
    requires 1 <= n <= |tail|
    ensures (done + [tail[0]]) + tail[1..][..n - 1] == done + tail[..n]
    ensures (done + tail[..n])[..|done|] == done && (done + tail[..n])[|done|..] == tail[..n]
  {
    assert tail[..n] == [tail[0]] + tail[1..][..n - 1];
  }

  /** The run of a recognised emoji as a prefix of the whole pipeline:
      the fetch alone (ending normally) when no image is found, the fetch
      and typing indicator when the name or format cannot be derived, and
      all seven effects exactly when every step before the upload succeeds. */
  lemma RecognisedFollowsPipeline(reaction: Reaction, angle: int, platform: Platform)
    requires angle in Angles
    ensures
      var run := Recognised(reaction, angle, platform);
      var fetch := FetchMessage(reaction.channel, reaction.message);
      var image := ImageUrlAndAuthor(platform.fetched);
      && (image.None? ==> run == Run([fetch], Finished))
      && (image.Some? ==>
            var url := image.value.url;
            && 2 <= |run.effects| <= 7
            && (ImageName(url).Ok? && platform.formatFromPath(ImageName(url).value).Some? ==>
                  var name := ImageName(url).value;
                  var format := platform.formatFromPath(name).value;
                  run.effects == [fetch] + Repost(reaction.channel, image.value, name, format,
                                                  SelectTurn(angle).value)[..|run.effects| - 1])
            && (ImageName(url).Err? || platform.formatFromPath(ImageName(url).value).None? ==>
                  run.effects == [fetch, BroadcastTyping(reaction.channel)])
            && (|run.effects| == 7 <==> ReachesUpload(image.value, platform))
            && (|run.effects| < 7 ==> run.status.Panicked?)
            && (|run.effects| == 7 ==> (run.status == Finished <==> platform.sendOk)))
  {
    var run := Recognised(reaction, angle, platform);
    var fetch := FetchMessage(reaction.channel, reaction.message);
    var image := ImageUrlAndAuthor(platform.fetched);
    if image.Some? {
      RepostFollowsPipeline([fetch], reaction.channel, angle, image.value, platform);
      assert run.effects == [fetch] + run.effects[1..];
    }
  }

  /** Each `unwrap()` in `Transform` ends the run at its own step and names
      itself: the request and body failures stop after the download, a
      decoding failure after the decoding, an encoding failure after the
      encoding, and a failed upload after the upload. */
  lemma TransformStopsAtFirstFailure(done: seq<Effect>, channel: ChannelId, angle: int, image: ImageRef,
                                     name: string, format: ImageFormat, platform: Platform)
    requires angle in Angles
    ensures
      var run := Transform(done, channel, angle, image, name, format, platform);
      var n := |run.effects| - |done|;
      && (!platform.requestOk ==> n == 1 && run.status == Panicked(RequestFailed))
      && (platform.requestOk && !platform.bodyOk ==> n == 1 && run.status == Panicked(BodyFailed))
      && (platform.requestOk && platform.bodyOk && !platform.decodeOk ==>
            n == 2 && run.status == Panicked(DecodeFailed))
      && (platform.requestOk && platform.bodyOk && platform.decodeOk && !platform.encodeOk ==>
            n == 4 && run.status == Panicked(EncodeFailed))
      && (n == 5 && !platform.sendOk ==> run.status == Panicked(SendFailed))
  {
  }

  /** The steps before `Transform` fail the same way: a failed typing
      indicator, a URL without `'/'` and an unknown format each stop the run
      right after the typing indicator, named by their own `Failure`. */
  lemma RepostStopsAtFirstFailure(done: seq<Effect>, channel: ChannelId, angle: int,
                                  image: ImageRef, platform: Platform)
    requires angle in Angles
    ensures
      var run := RotateAndRepost(done, channel, angle, image, platform);
      && (!platform.typingOk ==>
            |run.effects| == |done| + 1 && run.status == Panicked(TypingFailed))
      && (platform.typingOk && ImageName(image.url).Err? ==>
            |run.effects| == |done| + 1 && run.status == Panicked(UrlHasNoSlash))
      && (platform.typingOk && ImageName(image.url).Ok? &&
          platform.formatFromPath(ImageName(image.url).value).None? ==>
            |run.effects| == |done| + 1 && run.status == Panicked(UnknownFormat))
  {
  }
}
