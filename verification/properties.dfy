/** What the handler promises about every run: which events cause work,
    when a file is posted and what it is named and captioned, and that all
    effects agree with the reaction that caused them. */
module HandlerProperties {
  import opened Wrappers
  import opened Discord
  import opened Rotation
  import opened Attachments
  import opened Naming
  import opened Handler

  /** True when the run uploads a file. */
  predicate Sends(run: Run) {
    exists k :: 0 <= k < |run.effects| && run.effects[k].SendFile?
  }

  /** A custom emoji is ignored whatever its name. */
  lemma CustomEmojiIsIgnored(reaction: Reaction, platform: Platform)
    requires reaction.emoji.Custom?
    ensures ReactionAdd(reaction, platform) == Run([], Finished)
  {
  }

  /** With a recognised emoji, the run stops right after the fetch exactly
      when no image is found, including when the fetch itself failed. */
  lemma NoImageOnlyFetches(reaction: Reaction, platform: Platform)
    requires GetRotation(reaction).Some?
    ensures ReactionAdd(reaction, platform) == Run([FetchMessage(reaction.channel, reaction.message)], Finished)
            <==> ImageUrlAndAuthor(platform.fetched).None?
  {
    RecognisedFollowsPipeline(reaction, GetRotation(reaction).value, platform);
  }

  /** In a fetch followed by a prefix of `Repost`, only the seventh effect
      can be the upload. */
  lemma OnlySeventhEffectSends(effects: seq<Effect>, tail: seq<Effect>)
    requires 1 <= |effects| <= 7 && !effects[0].SendFile?
    requires |tail| == 6 && effects[1..] == tail[..|effects| - 1]
    requires forall j :: 0 <= j < 5 ==> !tail[j].SendFile?
    requires tail[5].SendFile?
    ensures forall k :: 0 <= k < |effects| ==> (effects[k].SendFile? <==> k == 6)
  {
    forall k | 1 <= k < |effects| ensures effects[k] == tail[k - 1] {
      assert effects[k] == effects[1..][k - 1];
    }
  }

  lemma RecognisedSends(reaction: Reaction, angle: int, platform: Platform)
    requires angle in Angles
    ensures
      var run := Recognised(reaction, angle, platform);
      var image := ImageUrlAndAuthor(platform.fetched);
      && (Sends(run) <==> image.Some? && ReachesUpload(image.value, platform))
      && (Sends(run) ==> |run.effects| == 7 && forall j :: 0 <= j < 6 ==> !run.effects[j].SendFile?)
      && (Sends(run) ==> (run.status == Finished <==> platform.sendOk))
  {
    var run := Recognised(reaction, angle, platform);
    var image := ImageUrlAndAuthor(platform.fetched);
    RecognisedFollowsPipeline(reaction, angle, platform);
    if image.None? {
      assert !run.effects[0].SendFile?;
    } else {
      var url := image.value.url;
      if ImageName(url).Ok? && platform.formatFromPath(ImageName(url).value).Some? {
        var name := ImageName(url).value;
        var format := platform.formatFromPath(name).value;
        var tail := Repost(reaction.channel, image.value, name, format, SelectTurn(angle).value);
        RecognisedIsPipelinePrefix(reaction, angle, platform, format);
        OnlySeventhEffectSends(run.effects, tail);
        if |run.effects| == 7 {
          assert run.effects[6].SendFile?;
        }
      } else {
        assert !run.effects[0].SendFile? && !run.effects[1].SendFile?;
      }
    }
  }

  /** A run uploads a file exactly when the emoji is recognised, an image is
      found and every step before the upload succeeds; the upload is then
      the seventh and last effect and the only one, and the run ends
      normally exactly when the upload succeeds. */
  lemma SendsIffEverythingBeforeSucceeds(reaction: Reaction, platform: Platform)
    ensures Sends(ReactionAdd(reaction, platform)) <==>
              && GetRotation(reaction).Some?
              && ImageUrlAndAuthor(platform.fetched).Some?
              && ReachesUpload(ImageUrlAndAuthor(platform.fetched).value, platform)
    ensures Sends(ReactionAdd(reaction, platform)) ==>
              var effects := ReactionAdd(reaction, platform).effects;
              |effects| == 7 && forall j :: 0 <= j < 6 ==> !effects[j].SendFile?
    ensures Sends(ReactionAdd(reaction, platform)) ==>
              (ReactionAdd(reaction, platform).status == Finished <==> platform.sendOk)
  {
    if GetRotation(reaction).Some? {
      RecognisedSends(reaction, GetRotation(reaction).value, platform);
    }
  }

  lemma RecognisedSendIsNamedAndCredited(reaction: Reaction, angle: int, platform: Platform)
    requires angle in Angles
    requires Sends(Recognised(reaction, angle, platform))
    ensures platform.fetched.Some? && ImageUrlAndAuthor(platform.fetched).Some?
    ensures
      var effects := Recognised(reaction, angle, platform).effects;
      var url := ImageUrlAndAuthor(platform.fetched).value.url;
      && |effects| == 7
      && ImageName(url).Ok?
      && effects[6] == SendFile(reaction.channel, RotatedPrefix + ImageName(url).value,
                                CaptionPrefix + MentionText(platform.fetched.value.author.id), false)
  {
    RecognisedSends(reaction, angle, platform);
    RecognisedFollowsPipeline(reaction, angle, platform);
  }

  /** The upload, if any, is the last effect, goes to the reaction's
      channel, carries the file name "ROTATED_" followed by the last segment
      of the image's URL and the caption crediting the message's author,
      and pings nobody. */
  lemma SentFileIsNamedAndCredited(reaction: Reaction, platform: Platform, k: nat)
    requires k < |ReactionAdd(reaction, platform).effects|
    requires ReactionAdd(reaction, platform).effects[k].SendFile?
    ensures k == |ReactionAdd(reaction, platform).effects| - 1
    ensures platform.fetched.Some? && ImageUrlAndAuthor(platform.fetched).Some?
    ensures
      var url := ImageUrlAndAuthor(platform.fetched).value.url;
      var send := ReactionAdd(reaction, platform).effects[k];
      && ImageName(url).Ok?
      && send.channel == reaction.channel
      && send.fileName == RotatedPrefix + ImageName(url).value
      && send.caption == CaptionPrefix + MentionText(platform.fetched.value.author.id)
      && !send.notifyUsers
  {
    assert Sends(ReactionAdd(reaction, platform));
    var angle := GetRotation(reaction).value;
    RecognisedSends(reaction, angle, platform);
    RecognisedSendIsNamedAndCredited(reaction, angle, platform);
  }

  /** The effects of any prefix of the pipeline address one channel, rotate
      by one turn and use one format. */
  lemma PipelinePrefixAgrees(effects: seq<Effect>, channel: ChannelId, image: ImageRef, name: string,
                             format: ImageFormat, turn: Turn)
    requires 1 <= |effects| <= 7
    requires effects[0].FetchMessage? && effects[0].channel == channel
    requires effects[1..] == Repost(channel, image, name, format, turn)[..|effects| - 1]
    ensures forall e | e in effects ::
              (e.FetchMessage? || e.BroadcastTyping? || e.SendFile?) ==> e.channel == channel
    ensures forall e | e in effects :: e.RotateImage? ==> e.turn == turn
    ensures forall e | e in effects :: e.Decode? || e.Encode? ==> e.format == format
  {
    var tail := Repost(channel, image, name, format, turn);
    forall e | e in effects ensures e == effects[0] || e in tail {
      var k :| 0 <= k < |effects| && effects[k] == e;
      if k > 0 {
        assert e == effects[1..][k - 1];
      }
    }
  }

  lemma RecognisedIsPipelinePrefix(reaction: Reaction, angle: int, platform: Platform, format: ImageFormat)
    requires angle in Angles
    requires ImageUrlAndAuthor(platform.fetched).Some?
    requires ImageName(ImageUrlAndAuthor(platform.fetched).value.url).Ok?
    requires platform.formatFromPath(ImageName(ImageUrlAndAuthor(platform.fetched).value.url).value) == Some(format)
    ensures
      var effects := Recognised(reaction, angle, platform).effects;
      var image := ImageUrlAndAuthor(platform.fetched).value;
      var tail := Repost(reaction.channel, image, ImageName(image.url).value, format, SelectTurn(angle).value);
      && 2 <= |effects| <= 7
      && effects[0] == FetchMessage(reaction.channel, reaction.message)
      && effects[1..] == tail[..|effects| - 1]
  {
    var effects := Recognised(reaction, angle, platform).effects;
    var image := ImageUrlAndAuthor(platform.fetched).value;
    var tail := Repost(reaction.channel, image, ImageName(image.url).value, format, SelectTurn(angle).value);
    RecognisedFollowsPipeline(reaction, angle, platform);
    DropHead(effects, FetchMessage(reaction.channel, reaction.message), tail[..|effects| - 1]);
  }

  lemma DropHead<T>(s: seq<T>, head: T, rest: seq<T>)
    requires s == [head] + rest
    ensures s[1..] == rest
  {
  }

  lemma RecognisedAgrees(reaction: Reaction, angle: int, platform: Platform)
    requires angle in Angles
    ensures forall e | e in Recognised(reaction, angle, platform).effects ::
              (e.FetchMessage? || e.BroadcastTyping? || e.SendFile?) ==> e.channel == reaction.channel
    ensures forall e | e in Recognised(reaction, angle, platform).effects ::
              e.RotateImage? ==> e.turn.Degrees() == angle
    ensures forall e, e' | e in Recognised(reaction, angle, platform).effects &&
                           e' in Recognised(reaction, angle, platform).effects ::
              e.Decode? && e'.Encode? ==> e.format == e'.format
  {
    var run := Recognised(reaction, angle, platform);
    var image := ImageUrlAndAuthor(platform.fetched);
    RecognisedFollowsPipeline(reaction, angle, platform);
    if image.None? {
      assert run.effects == [FetchMessage(reaction.channel, reaction.message)];
    } else {
      var url := image.value.url;
      if ImageName(url).Ok? && platform.formatFromPath(ImageName(url).value).Some? {
        var format := platform.formatFromPath(ImageName(url).value).value;
        TransformAgrees(reaction, angle, platform, format);
      } else {
        assert run.effects == [FetchMessage(reaction.channel, reaction.message), BroadcastTyping(reaction.channel)];
      }
    }
  }

  lemma TransformAgrees(reaction: Reaction, angle: int, platform: Platform, format: ImageFormat)
    requires angle in Angles
    requires ImageUrlAndAuthor(platform.fetched).Some?
    requires ImageName(ImageUrlAndAuthor(platform.fetched).value.url).Ok?
    requires platform.formatFromPath(ImageName(ImageUrlAndAuthor(platform.fetched).value.url).value) == Some(format)
    ensures forall e | e in Recognised(reaction, angle, platform).effects ::
              (e.FetchMessage? || e.BroadcastTyping? || e.SendFile?) ==> e.channel == reaction.channel
    ensures forall e | e in Recognised(reaction, angle, platform).effects ::
              e.RotateImage? ==> e.turn.Degrees() == angle
    ensures forall e | e in Recognised(reaction, angle, platform).effects ::
              e.Decode? || e.Encode? ==> e.format == format
  {
    var run := Recognised(reaction, angle, platform);
    var image := ImageUrlAndAuthor(platform.fetched).value;
    var name := ImageName(image.url).value;
    var turn := SelectTurn(angle).value;
    RecognisedIsPipelinePrefix(reaction, angle, platform, format);
    PipelinePrefixAgrees(run.effects, reaction.channel, image, name, format, turn);
  }

  /** Every effect that addresses a channel addresses the reaction's, the
      image is rotated by exactly the angle the emoji stands for, and it is
      re-encoded in the format it was decoded with. */
  lemma EffectsAgreeWithReaction(reaction: Reaction, platform: Platform)
    ensures forall e | e in ReactionAdd(reaction, platform).effects ::
              (e.FetchMessage? || e.BroadcastTyping? || e.SendFile?) ==> e.channel == reaction.channel
    ensures forall e | e in ReactionAdd(reaction, platform).effects ::
              e.RotateImage? ==> GetRotation(reaction).Some? && e.turn.Degrees() == GetRotation(reaction).value
    ensures forall e, e' | e in ReactionAdd(reaction, platform).effects && e' in ReactionAdd(reaction, platform).effects ::
              e.Decode? && e'.Encode? ==> e.format == e'.format
  {
    if GetRotation(reaction).Some? {
      RecognisedAgrees(reaction, GetRotation(reaction).value, platform);
    }
  }

  /** When the emoji is recognised, an image found and every call
      succeeds, the run is the whole pipeline and ends normally. */
  lemma CompleteRun(reaction: Reaction, platform: Platform, image: ImageRef,
                    name: string, format: ImageFormat)
    requires GetRotation(reaction).Some? && ImageUrlAndAuthor(platform.fetched) == Some(image)
    requires ImageName(image.url) == Ok(name) && platform.formatFromPath(name) == Some(format)
    requires platform.typingOk && platform.requestOk && platform.bodyOk
    requires platform.decodeOk && platform.encodeOk && platform.sendOk
    ensures SelectTurn(GetRotation(reaction).value).Some?
    ensures ReactionAdd(reaction, platform) ==
            Run([FetchMessage(reaction.channel, reaction.message)] +
                Repost(reaction.channel, image, name, format, SelectTurn(GetRotation(reaction).value).value),
                Finished)
  {
    RecognisedFollowsPipeline(reaction, GetRotation(reaction).value, platform);
  }

  /** A counterclockwise-arrows reaction on a message whose only attachment
      is a PNG, with every call succeeding, reposts it once, turned half
      way, as "ROTATED_cat.png", crediting the author without a ping. */
  lemma HalfTurnOfCatPicture(author: User, platform: Platform, png: ImageFormat)
    requires author.id == 42
    requires platform.fetched ==
             Some(Message(7, 3, author, [Attachment("https://cdn/cat.png", "cat.png", Some(64), Some(48))]))
    requires platform.formatFromPath("cat.png") == Some(png)
    requires platform.typingOk && platform.requestOk && platform.bodyOk
    requires platform.decodeOk && platform.encodeOk && platform.sendOk
    ensures ReactionAdd(Reaction(Unicode(CounterclockwiseArrows), 3, 7, 9), platform) ==
            Run([ FetchMessage(3, 7),
                  BroadcastTyping(3),
                  Download("https://cdn/cat.png"),
                  Decode(png),
                  RotateImage(Rotate180),
                  Encode(png),
                  SendFile(3, "ROTATED_cat.png", "Rotated image from <@42>", false) ],
                Finished)
  {
    var reaction := Reaction(Unicode(CounterclockwiseArrows), 3, 7, 9);
    var image := ImageRef("https://cdn/cat.png", author);
    SoleImageIsChosen(platform.fetched.value);
    CounterclockwiseIsHalfTurn(reaction);
    CatPictureName();
    CatPictureRepost(author, png);
    CompleteRun(reaction, platform, image, "cat.png", png);
    PrependToSix(FetchMessage(3, 7), BroadcastTyping(3), Download("https://cdn/cat.png"), Decode(png),
                 RotateImage(Rotate180), Encode(png),
                 SendFile(3, "ROTATED_cat.png", "Rotated image from <@42>", false));
  }

  lemma CatPictureRepost(author: User, png: ImageFormat)
    requires author.id == 42
    ensures SelectTurn(180) == Some(Rotate180)
    ensures Repost(3, ImageRef("https://cdn/cat.png", author), "cat.png", png, Rotate180) ==
            [ BroadcastTyping(3),
              Download("https://cdn/cat.png"),
              Decode(png),
              RotateImage(Rotate180),
              Encode(png),
              SendFile(3, "ROTATED_cat.png", "Rotated image from <@42>", false) ]
  {
    var image := ImageRef("https://cdn/cat.png", author);
    var send := SendFile(3, "ROTATED_cat.png", "Rotated image from <@42>", false);
    assert Repost(3, image, "cat.png", png, Rotate180)[5] == send by {
      CatPictureName();
      CaptionOfAuthor42();
    }
  }

  lemma PrependToSix(a: Effect, b: Effect, c: Effect, d: Effect, e: Effect, f: Effect, g: Effect)
    ensures [a] + [b, c, d, e, f, g] == [a, b, c, d, e, f, g]
  {
  }

  lemma SoleImageIsChosen(msg: Message)
    requires |msg.attachments| == 1 && IsImage(msg.attachments[0])
    ensures ImageUrlAndAuthor(Some(msg)) == Some(ImageRef(msg.attachments[0].url, msg.author))
  {
    assert FirstImageIndex(msg.attachments) == Some(0);
  }

  lemma CounterclockwiseIsHalfTurn(reaction: Reaction)
    requires reaction.emoji == Unicode(CounterclockwiseArrows)
    ensures GetRotation(reaction) == Some(180)
  {
    assert CounterclockwiseArrows in HalfSymbols;
  }

  lemma CatPictureName()
    ensures ImageName("https://cdn/cat.png") == Ok("cat.png")
    ensures RotatedName("cat.png") == "ROTATED_cat.png"
  {
    ImageNameIsLastSegment("https://cdn/", "cat.png");
    assert "https://cdn/cat.png" == "https://cdn/" + "cat.png";
  }

  lemma CaptionOfAuthor42()
    ensures Caption(42) == "Rotated image from <@42>"
  {
    assert Digits(4) == "4";
    assert Digits(42) == Digits(4) + "2" == "42";
  }
}
