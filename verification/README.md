# rotatron core in Dafny

rotatron is a chat bot. When someone adds a rotation emoji as a reaction to a
message that carries an image, the bot posts a rotated copy of the image in
the same channel. The copy is credited to the original author, and that
author is not pinged.

This project models the bot's decision logic as pure functions and proves
properties about it. The logic has four parts:

- **Rotation lookup** (`rotation.dfy`, module `Rotation`). A fixed table maps
  eight Unicode emoji to 90, 180 or 270 degrees. A custom emoji never maps to
  anything. A second function gives the three-armed `match` that turns an
  angle into a rotation; its `panic!()` arm is modelled as `None`.
- **Attachment selection** (`attachments.dfy`, module `Attachments`). It
  finds the first attachment in list order whose width is known. It returns
  that attachment's URL together with the message author. The platform's
  message fetch is an input `Option<Message>`, where `None` means the fetch
  failed.
- **Names and caption** (`naming.dfy`, module `Naming`). The file name is
  the part of the URL after its last `'/'`; a URL with no `'/'` is an error.
  The posted file is named `"ROTATED_" + name`. The caption is
  `"Rotated image from " + mention`.
- **The handler** (`handler.dfy`, module `Handler`, and `properties.dfy`,
  module `HandlerProperties`). `reaction_add` becomes a function
  `ReactionAdd(reaction, platform)`. It returns a `Run`: the list of effects
  the handler performs (fetch, typing, download, decode, rotate, encode,
  send) and how the run ends. A run either finishes or panics with the
  `Failure` that names the `unwrap()` that failed. A `Platform` value holds
  the outcome of every call the handler makes outside itself.

`discord.dfy` (module `Discord`) holds the platform values: reactions,
messages, attachments and users. `wrappers.dfy` (module `Wrappers`) holds
`Option` and `Result`.

The code calls `unwrap()` on every fallible step, so the model ends the run
as `Panicked(..)` at the first step that fails. The effects performed before
that step stay in the trace.

## Model

| member | source | states |
|---|---|---|
| `Rotation.GetRotation` | src/main.rs:15-34 | A reaction gets an angle only if it is a Unicode emoji in the table, and the angle is in {90, 180, 270}. The leftwards hook arrow and the curving-down arrow give 90. The rightwards hook arrow and the curving-up arrow give 270. The four circular-arrow symbols give 180. Any other Unicode text gives `None`, and so does every custom emoji, whatever its name. |
| `Rotation.TableHasEightSymbols` | src/main.rs:15-24 | The table's keys are exactly the eight symbols. There are 8 of them, and the set of values is exactly {90, 180, 270}. |
| `Rotation.ArrowsNeedVariationSelector` | src/main.rs:16-31 | Keys must match exactly. A curving-up arrow without its variation selector U+FE0F gives no angle. A circular-arrow symbol with an extra U+FE0F gives no angle. The full key gives 270. |
| `Rotation.SelectTurn` | src/main.rs:81-86 | The rotation `match` takes a non-panicking arm exactly when the angle is 90, 180 or 270, and that arm rotates by the same angle. |
| `Rotation.PanicArmUnreachable` | src/main.rs:81-86 | Every angle the lookup returns takes a non-panicking arm of the `match`, and that arm matches the angle. |
| `Attachments.FirstImageIndex` | src/main.rs:43-48 | The result is the index of an attachment that has a width, and every attachment before it lacks one. `None` means that no attachment has a width. |
| `Attachments.FirstImageIsUnique` | src/main.rs:43-48 | If an attachment has a width and none before it does, then it is the one chosen. |
| `Attachments.ImageUrlAndAuthor` | src/main.rs:42-50 | A failed fetch gives `None`. Otherwise there is a result exactly when some attachment has a width. The result pairs the message author with the URL of an attachment that has a width and has no such attachment before it. |
| `Attachments.ScanAttachments` | src/main.rs:42-50 | The early-return loop over the attachments computes the same result as the declarative selection. |
| `Attachments.SecondAttachmentChosen` | src/main.rs:43-47 | For the attachment list [no width, width 800, width 400], the second attachment is chosen. |
| `Naming.LastIndexOf` | src/main.rs:71 | The search finds an index exactly when the character occurs. That index holds the character, and the character does not occur after it. |
| `Naming.ImageName` | src/main.rs:71 | A URL with no `'/'` is an error. Otherwise the name contains no `'/'`, and the URL is a prefix ending in `'/'` followed by the name. |
| `Naming.ImageNameIsLastSegment` | src/main.rs:71 | Any split of a URL into a prefix ending in `'/'` and a suffix without `'/'` gives that suffix as the name. Together with `ImageName`'s contract, the name is exactly the last path segment. |
| `Naming.RotatedName` | src/main.rs:105 | The posted file's name is the 8 characters `ROTATED_` followed by the original name. It contains no `'/'` if the original has none. |
| `Naming.RotatedNameIsInjective` | src/main.rs:105 | Two different original names never give the same posted name. |
| `Naming.MentionText` | src/main.rs:46 | An author mention is written as `<@`, then the decimal digits of the author's id, then `>`. The digits read back to that id. |
| `Naming.Caption` | src/main.rs:107 | The caption is `Rotated image from ` followed by exactly the author's mention. |
| `Naming.ParseDigitsOfDigits` | src/main.rs:107 | The digits in a mention read back to the user id. |
| `Naming.CaptionIdentifiesAuthor` | src/main.rs:107 | Two authors get the same caption only if they are the same author. |
| `Handler.ReactionAdd` | src/main.rs:60-115 | A run has no effects exactly when the emoji is not recognised, and such a run finishes normally. No run ever ends in the `panic!()` arm of the rotation `match`. |
| `Handler.Recognised` | src/main.rs:61-64 | With a recognised emoji, the first effect is always the fetch of the reacted-to message. For any angle in the table, the run never reaches the `panic!()` arm. |
| `Handler.RotateAndRepost` | src/main.rs:65-73 | The run keeps the effects already done and adds at least one more. For an angle in the table it never reaches the `panic!()` arm. |
| `Handler.Transform` | src/main.rs:75-112 | The run keeps the effects already done and adds at least one more. For an angle in the table it never reaches the `panic!()` arm. |
| `Handler.TransformFollowsPipeline` | src/main.rs:75-112 | Download, decode, rotate, encode and send happen in that order and stop at the first failure. All five happen exactly when the download, decode and encode succeed. The run then finishes normally exactly when the send succeeds. |
| `Handler.TransformStopsAtFirstFailure` | src/main.rs:75-112 | Each failing `unwrap()` ends the run right after its own step and names itself. A failed request or body ends after the download, with `RequestFailed` or `BodyFailed`. A failed decode ends after the decode, with `DecodeFailed`. A failed encode ends after the encode, with `EncodeFailed`. A failed upload ends after the upload, with `SendFailed`. |
| `Handler.RepostStopsAtFirstFailure` | src/main.rs:65-73 | Each of these ends the run right after the typing indicator: a failed typing indicator (`TypingFailed`), a URL with no `'/'` (`UrlHasNoSlash`) and a file name with no known format (`UnknownFormat`). |
| `Handler.RepostFollowsPipeline` | src/main.rs:65-112 | After the typing indicator, the run follows the pipeline order. If the name or the format cannot be derived, it stops right after the typing indicator. It reaches the upload exactly when every earlier step succeeds. |
| `Handler.RecognisedFollowsPipeline` | src/main.rs:62-112 | With a recognised emoji and no image, the run is the fetch alone and finishes normally. With an image, the run is a prefix of the seven-step pipeline. All seven steps happen exactly when every step before the upload succeeds. A shorter run always ends in a panic. |
| `HandlerProperties.CustomEmojiIsIgnored` | src/main.rs:30-33 | A custom emoji produces no effects and finishes normally. |
| `HandlerProperties.NoImageOnlyFetches` | src/main.rs:61-64 | With a recognised emoji, the run is only the message fetch exactly when no image is found, which includes a failed fetch. |
| `HandlerProperties.RecognisedSends` | src/main.rs:62-112 | With an angle in the table, a file is sent exactly when an image is found and every step before the upload succeeds. The send is the seventh effect and no earlier effect is a send. |
| `HandlerProperties.SendsIffEverythingBeforeSucceeds` | src/main.rs:60-115 | A file is posted exactly when the emoji is recognised, an image is found and every step before the upload succeeds. The post is then the seventh and only send. The run finishes normally exactly when the upload succeeds. |
| `HandlerProperties.RecognisedSendIsNamedAndCredited` | src/main.rs:101-112 | When a file is sent, the seventh effect is the send to the reaction's channel. It carries `ROTATED_` plus the URL's last segment, and the caption credits the fetched message's author. |
| `HandlerProperties.SentFileIsNamedAndCredited` | src/main.rs:101-112 | Any send in a run is the last effect. It goes to the reaction's channel and names the file `ROTATED_` plus the URL's last segment. Its caption credits the fetched message's author, and it pings no one. |
| `HandlerProperties.RecognisedAgrees` | src/main.rs:65-105 | With an angle in the table, every fetch, typing indicator and send goes to the reaction's channel. Every rotation is by that angle. Decoding and encoding use the same format. |
| `HandlerProperties.TransformAgrees` | src/main.rs:73-105 | Once the format is detected from the file name, every decode and encode uses that format. |
| `HandlerProperties.EffectsAgreeWithReaction` | src/main.rs:60-115 | Every effect that addresses a channel addresses the reaction's channel. A rotation only happens for a recognised emoji and is by exactly its angle. The image is re-encoded in the format it was decoded with. |
| `HandlerProperties.CompleteRun` | src/main.rs:60-115 | When the emoji is recognised, an image is found and every call succeeds, the run is the full seven-effect pipeline and finishes normally. |
| `HandlerProperties.HalfTurnOfCatPicture` | src/main.rs:60-115 | A counterclockwise-arrows reaction on a message whose only attachment is `cat.png`, with every call succeeding, gives exactly one post. That post is a 180-degree rotation named `ROTATED_cat.png`, captioned `Rotated image from <@42>`, with no ping. |

## Left out

- Platform and network calls are left out: the message fetch, the typing indicator, the HTTP download and the file upload (src/main.rs:42, 65-69, 75-77, 101-112). Each is an effect in the trace, and its outcome is an input in `Platform`. A failed fetch is `None`; the source discards the error's kind.
- Image decoding, pixel rotation and encoding (src/main.rs:78-99) are calls into the image library, whose code is not part of this model. The trace records `Decode(format)`, `RotateImage(turn)` and `Encode(format)`, and whether each succeeds is an input. Laws about pixel geometry are not modelled, such as width and height swapping for quarter turns or a 90-degree turn undoing a 270-degree turn.
- Format detection from the file name (src/main.rs:73) is an uninterpreted partial function `formatFromPath` in `Platform`. The image library's extension table is not part of this model.
- The seek back to the start of the in-memory buffer (src/main.rs:98) has no effect on the trace and no failure case in the model, because seeking an in-memory cursor to offset 0 cannot fail.
- Naming.MentionText: the `<@id>` form comes from the platform library's rendering of a user mention, which is not part of this model's source. The model uses that form so that captions are concrete strings.
- The two `unwrap()` calls on the download (request and body, src/main.rs:75 and 77) share one `Download` effect. They are distinguished only by their `Failure` values, `RequestFailed` and `BodyFailed`.
- Whether a panic ends only the handler's coroutine or the whole process depends on the async runtime, which is not modelled. The run simply ends as `Panicked`.
- Concurrent handler runs are not modelled. Each run is a pure function of its own event and platform outcomes, and runs share only the constant table, so two reactions on the same message give two independent runs.
- Logging (`info!`, `println!`), the `ready` handler and `main` are left out (src/main.rs:56-58, 72, 118-134). They do not affect the handler's decisions.
- Some fields are carried in the data model but never read, as in the source: the reacting user's id, the attachment's height, the attachment's own `filename`, the fetched message's own id and channel, and the author's name.
- `rfind` returns a byte offset, while the model works on sequences of characters. Because `'/'` is a single byte, cutting the URL after it gives the same name either way.
