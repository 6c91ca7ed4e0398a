# Лыжный Базар bot — a verified model of its core

The bot takes classified ads for ski gear over Telegram. A user walks through
a fixed form. The form asks nine text answers (category, item, size,
condition, price, city, delivery, contact, description). It then collects
photos and videos and shows a preview. The user either submits the ad or
starts over. A submitted ad is queued under the key `"<user id>_<seconds>"`,
where the seconds are `int(datetime.utcnow().timestamp())`. Because
`.timestamp()` reads the naive UTC time as local time, this number is the
epoch second shifted by the host's zone offset; the model takes it as a
parameter. Every moderator listed in `ADMIN_IDS` receives it with an
approve and a reject button. Approving posts the ad to the channel and
dequeues it. Rejecting dequeues it.

The Dafny project models that core in six modules:

- `Optional` (`optional.dfy`): the `Option` type.
- `Strings` (`strings.dfy`): the Python string operations the core relies on.
  These are `str.strip()` over the `isspace` characters, `split`/`join` on one
  separator, `replace` of one character, `split(":", 1)[1]`, and `int()`/`str()`
  on integers.
- `Admins` (`admins.dfy`): `get_admin_ids` as a loop proved against the
  function `AdminIds`, and `is_admin`.
- `Listing` (`listing.dfy`): `format_listing`, the hashtag line, and the way a
  listing is sent. One media item is sent on its own. Any other number is
  sent as an album whose first element carries the caption.
- `Moderation` (`moderation.dfy`): the submission key, the button data, and the
  moderation handler as a function `Moderate`. The queue is a `Store` class
  whose `db` map `HandleCallback` updates in place.
- `Form` (`form.dfy`): the conversation states `Cat`…`Confirm` (0…10), the
  handler table of `build_app` as `Route`, and one user's `Session`. A
  `Session` holds the conversation state and the `user_data` record, and has
  one method per handler. `Dispatch` runs one update through the table.

Calls to the messaging provider are not made. What would be sent is a
value: a `Publication` for media, or a `Notice` for a moderator. Whether the
handler's message to the user goes through (`replyOk`), and whether the
channel post and the moderator's acknowledgement succeed (`postOk`,
`ackOk`), are parameters. A failed message raises, so the handler stops
there and the conversation stays in its state. The environment and the clock are also parameters:
`ADMIN_IDS` and `CHANNEL_ID` as text, and the key's seconds and the creation
time.

Behaviours of the code that the model keeps as written:

- Python's `$` also matches before a final line break. So `"готово\n"` ends
  the media step.
- `"edit\n"` passes the confirm pattern `^(submit|edit)$`. The handler then
  compares the data with `"edit"` exactly, so `"edit\n"` submits the ad
  (`Route`, `Session.HandleConfirm`).
- The channel post and the moderator's acknowledgement run inside one `try`.
  If the post succeeds and the acknowledgement fails, the ad is already
  public but stays queued. A second approval then posts it again
  (`AckFailureRepublishes`).
- The acknowledgement edits the text of the message that carries the
  buttons. For a submission with one photo or video, the buttons sit on
  that photo or video, which has a caption and no text, so the edit fails
  (and so does the edit in the `except` branch). Approving such a
  submission posts it and leaves it queued, every further approval posts it
  again, and only a reject removes it. For an album the buttons are in a
  separate text message and approving dequeues it
  (`NoticesLeadToSubmission`).
- Two submissions by one user within one second share a key. The later one
  overwrites the earlier (`SubmissionKeyInjective`, `Store.Insert`).
- `start` and `cancel` reply before they touch the record, so a failed
  reply changes nothing. A `set_*` step stores the answer before it asks
  the next question, so a failed question leaves the answer stored and the
  state unchanged. `media_done` moves to confirmation only when the preview
  goes out. The provider refuses a preview, for instance, when an answer
  holds `<` or `&`: answers go into an HTML caption unescaped
  (main_webhook.py:97-107, 217, 229). It also refuses a listing longer than
  its caption limit, and an album over its size limit, since
  `collect_media` sets no cap. Such a preview keeps the user at the media
  step. The same listing, sent to the moderators (main_webhook.py:274) and
  to the channel (main_webhook.py:321), fails there too, which the model
  expresses as `replyOk` and `postOk` being false.
- `confirm_handler` clears the record only after it edits the button
  message. If that edit fails, the ad is queued and announced but the
  conversation stays at confirmation, and pressing submit again queues and
  announces it once more (`Session.HandleConfirm`).
- An answer is stored stripped. A blank answer is therefore stored as `""`.
  It shows as an empty field, not as `—`, and gives no hashtag.

## Model

| member | source | states |
|---|---|---|
| Strings.StripStartSpec | main_webhook.py:72 | stripping the front removes exactly a prefix of whitespace and leaves a result that is empty or starts with non-whitespace |
| Strings.StripEndSpec | main_webhook.py:72 | stripping the end removes exactly a suffix of whitespace and leaves a result that is empty or ends with non-whitespace |
| Strings.StripIdempotent | main_webhook.py:143 | stripping a stripped answer changes nothing |
| Strings.Strip | main_webhook.py:72 | `str.strip()`; its meaning is stated by `StripStartSpec`, `StripEndSpec` and `StripIdempotent` |
| Strings.Split | main_webhook.py:71 | `split` always yields at least one part |
| Strings.JoinSplit | main_webhook.py:71 | joining the parts of a split with the separator gives back the original text, and no part contains the separator |
| Strings.SplitJoin | main_webhook.py:95 | splitting a join of separator-free parts gives back the parts |
| Strings.ReplaceChar | main_webhook.py:87 | `replace` keeps the length, swaps exactly the matching characters, and leaves none of the replaced character |
| Strings.AfterFirst | main_webhook.py:305 | `split(":", 1)[1]`, on text that holds the separator, is the text after its first occurrence, which the head before it does not contain |
| Strings.AfterFirstOfPrefix | main_webhook.py:305 | for a head without the separator, the text after the first separator is exactly the tail |
| Strings.ShowInt | main_webhook.py:251 | the decimal form of an integer is non-empty and holds only digits and `-` |
| Strings.ParseShowInt | main_webhook.py:75 | `int()` of the decimal form of `n` is `n` |
| Strings.ShowIntInjective | main_webhook.py:251 | distinct integers have distinct decimal forms |
| Strings.ParseInt | main_webhook.py:75 | `int()` on a sign and decimal digits, `None` for anything else; `ParseShowInt` states that it reads back every decimal form |
| Admins.AdminIds | main_webhook.py:68-78 | the ids of a setting, in order; `AdminIdsMember` states which ids they are and `AdminIdsOfSetting` that a written list reads back |
| Admins.GetAdminIds | main_webhook.py:68-78 | the loop returns exactly `AdminIds(raw)`: the non-blank, integer parts of the setting, stripped and in order |
| Admins.IsAdmin | main_webhook.py:110-111 | a user is a moderator exactly when their id is among the parsed ids |
| Admins.PresentMember | main_webhook.py:72-77 | a value is collected exactly when some part contributes it |
| Admins.AdminIdsMember | main_webhook.py:68-78 | `n` is a moderator id exactly when some comma-separated part strips to a non-blank text that `int()` reads as `n` |
| Admins.PartIdShown | main_webhook.py:72-75 | a decimal form survives stripping and parses back to its number |
| Admins.AdminIdsOfSetting | main_webhook.py:68-78 | a setting written as comma-joined ids reads back as exactly those ids, in order |
| Listing.TagIsWord | main_webhook.py:86-93 | a hashtag starts with `#`, holds no space, and stays on one line when its value does |
| Listing.TagsAreWords | main_webhook.py:85-93 | every hashtag of a listing starts with `#` and holds no space |
| Listing.TagsOfMember | main_webhook.py:85-93 | the hashtags are exactly the tags of the category, size, condition and city fields that have a non-empty value |
| Listing.TagsOfCount | main_webhook.py:85-93 | there are at most as many hashtags as tag fields, and none exactly when no tag field has a value |
| Listing.FormatListing | main_webhook.py:83-108 | `format_listing`; its hashtags are stated by `TagsOfMember`/`TagsLineWords` and its lines by `FormatListingLines` |
| Listing.TagsLineWords | main_webhook.py:95 | the tag line is empty exactly when there are no hashtags, and otherwise splits on spaces back into the hashtags |
| Listing.FormatListingJoin | main_webhook.py:97-107 | whatever the answers hold, the listing is its eleven lines (tag line, blank, seven labelled fields with `—` when absent, blank, description) joined with line breaks |
| Listing.JoinListingLayout | main_webhook.py:97-107 | joining eleven lines with line breaks is the f-string layout of the listing |
| Strings.JoinSnoc | main_webhook.py:95 | joining one more part adds one separator and that part at the end |
| Listing.FormatListingLines | main_webhook.py:97-107 | with single-line answers, the listing's lines are the tag line, a blank line, the seven labelled fields (`—` when absent), a blank line and the description |
| Listing.Layout | main_webhook.py:214-232 | how a listing is sent; stated by `LayoutKeepsMedia` |
| Listing.LayoutKeepsMedia | main_webhook.py:214-232 | a publication keeps the media's number, order, kinds and file ids; only the first item has a caption; HTML is set only on a non-empty caption; exactly one item is sent on its own |
| Listing.BuildAlbum | main_webhook.py:223-232 | the album loop builds the album `AlbumOf`: the caption on index 0 only |
| Listing.Compose | main_webhook.py:214-232 | one item goes out singly, anything else as the album |
| Moderation.SubmissionKey | main_webhook.py:251 | the submission key `"<user id>_<seconds>"`; `SubmissionKeyInjective` states that it identifies user and second |
| Moderation.SubmissionKeyInjective | main_webhook.py:251 | two submission keys are equal exactly when user and second are equal |
| Moderation.ParseAction | main_webhook.py:302-305 | `approve:` data approves and `reject:` data rejects the id after the prefix; other data is not routed to the handler |
| Moderation.ParseButtons | main_webhook.py:262-264 | the buttons sent for a submission parse back to approve and reject of that submission |
| Moderation.Moderate | main_webhook.py:295-347 | `moderation_handler` on values; stated by `ModerationEffects`, `ApproveQueued`, `ApproveTwice`, `AckFailureRepublishes`, `PostFailureKeepsQueue` and `RejectDrops` |
| Moderation.ModerationEffects | main_webhook.py:295-347 | moderation only removes the entry the button names, and only for a moderator; non-moderators are refused; only a moderator's approval of a queued entry posts, and it posts that entry's listing; "published" means posted and dequeued |
| Moderation.ApproveQueued | main_webhook.py:303-336 | a moderator approving a queued entry posts exactly its listing and dequeues it |
| Moderation.ApproveTwice | main_webhook.py:307-310 | a second approval finds nothing and posts nothing |
| Moderation.AckFailureRepublishes | main_webhook.py:318-340 | when the post succeeds and the acknowledgement fails, the listing is out but the entry stays queued, so approving again posts it again |
| Moderation.PostFailureKeepsQueue | main_webhook.py:318-340 | a failed post leaves the queue unchanged and posts nothing |
| Moderation.RejectDrops | main_webhook.py:341-347 | rejecting removes the id whether queued or not, posts nothing, and doing it twice is the same as once |
| Moderation.Store.constructor | main_webhook.py:48-55 | the queue starts empty |
| Moderation.Store.Insert | main_webhook.py:252-258 | storing a submission sets that key and leaves every other entry |
| Moderation.Store.HandleCallback | main_webhook.py:295-347 | the handler's new queue, reply and posted listing are those of `Moderate` for the parsed moderator ids |
| Form.State.Code | main_webhook.py:39-41 | the states are numbered 0 to 10 |
| Form.State.Next | main_webhook.py:142-189 | each text step moves to the next state in the chain |
| Form.OfCode | main_webhook.py:39-41 | every number 0 to 10 names the state with that number |
| Form.StatesAndKeys | main_webhook.py:142-189 | states with the same number are the same, and distinct text steps store distinct keys |
| Form.AnswerAddsKey | main_webhook.py:142-189 | answering a step adds exactly that step's key to the answered keys |
| Form.CompleteAnswers | main_webhook.py:184-239 | from the media step on, all nine answers are in the record, so no field shows `—` |
| Form.FullMatchWords | main_webhook.py:368-370 | an anchored pattern accepts a word alone or followed by one line break, and nothing else |
| Form.StateHandler | main_webhook.py:356-371 | the handlers of one conversation state; stated through `Route` |
| Form.Route | main_webhook.py:354-378 | `/start` always restarts; `/cancel` ends exactly inside a conversation; a text step takes exactly the non-command text; the media step takes exactly photos and videos, and exactly the texts matching the done pattern; the confirm step takes exactly the button presses whose data matches the submit-or-edit pattern; `/rules` and the moderation buttons are handled exactly when sent; outside a conversation nothing else is handled |
| Form.CommandsNeverAnswer | main_webhook.py:357-366 | a command is never taken as an answer, a media item, a done word or a confirmation |
| Form.NoticesForSnoc | main_webhook.py:269 | the notices for one more moderator are the earlier notices plus that moderator's |
| Form.NotifyAdmins | main_webhook.py:260-289 | the notify loop sends every moderator, in order, the listing of the record with the approve and reject buttons for its key |
| Form.NoticesLeadToSubmission | main_webhook.py:249-289 | each moderator gets the confirmed listing, with the buttons apart exactly when the media is not one item; with the buttons apart, approving publishes exactly that listing and dequeues it; with the buttons on a single photo or video the acknowledgement fails, so approving publishes it and keeps it queued; each reject button drops it |
| Form.StartWellFormed | main_webhook.py:114-123 | `/start` begins a well-formed session |
| Form.AnswerWellFormed | main_webhook.py:142-189 | storing the stripped answer keeps the session well formed, whether or not the state moves on |
| Form.CollectWellFormed | main_webhook.py:191-202 | collecting media keeps the session well formed |
| Form.ConfirmWellFormed | main_webhook.py:204-239 | moving from the media step to confirmation with some media keeps the session well formed |
| Form.AllAnswered | main_webhook.py:204-239 | the media step and confirmation both have all nine answers |
| Form.Collected | main_webhook.py:191-202 | a photo contributes its largest size and a video its file; anything else contributes nothing |
| Form.Session.constructor | main_webhook.py:354-375 | a user starts with no conversation and an empty record |
| Form.Session.Start | main_webhook.py:114-123 | once the greeting goes out, `/start` clears the record, sets an empty media list, and moves to the category step; a failed greeting changes nothing |
| Form.Session.Cancel | main_webhook.py:125-128 | once the reply goes out, `/cancel` clears the record and ends the conversation; a failed reply changes nothing |
| Form.Session.Answer | main_webhook.py:142-189 | a text step stores the stripped text under its key and leaves the media; it moves to the next step only when the next question goes out; the record stays well formed |
| Form.Session.CollectMedia | main_webhook.py:191-202 | a media message appends what it carries to the media list and stays at the media step |
| Form.Session.MediaDone | main_webhook.py:204-239 | with no media the step repeats and nothing is shown; otherwise, when the preview goes out, it is the record's publication and the form moves to confirmation; when it fails, nothing changes; the record is never changed |
| Form.Session.HandleConfirm | main_webhook.py:241-293 | "edit" never touches the queue; anything else queues a snapshot of the record under the user's key and notifies every moderator; the record is cleared and the conversation ends only when the button edit goes out, and otherwise stays as it was |
| Form.Session.Dispatch | main_webhook.py:350-378 | an update runs the handler `Route` picks, with that handler's whole effect on the record, the state, the queue and what is sent; every session stays well formed |

## Left out

- Reading and writing the submissions file (`load_db`, `save_db`, `DATA_DIR`) is not modelled. The queue lives in `Store.db`. A missing or corrupt file reading as empty is only the `Store` constructor.
- Calls to the messaging provider are not made: replies, previews, channel posts, notices and keyboard texts. Their results are values (`Publication`, `Notice`, `Reply`). Their success is the parameters `replyOk` (the handler's message to the user), `postOk` and `ackOk`.
- `query.answer()` at the start of `confirm_handler` and `moderation_handler` is taken to succeed. If it failed, the handler would stop before doing anything.
- Form.Session.MediaDone: one `replyOk` covers both the preview and the question that follows it. The state is the same either way, but when only the question fails the user has seen the preview and the model reports none.
- In `moderation_handler`, a failed edit of the moderator's message matters only after an approval (`ackOk`). Everywhere else the queue is already settled when the edit is made.
- Form.Session.Dispatch: `ackOk` is a parameter and is not derived from the notice the moderator pressed. That the text edit fails on a photo or video message is the provider's behaviour, and `NoticesLeadToSubmission` states its consequence for `ackOk` false.
- A failed notice to one moderator is logged and skipped, and the model does not represent it. `NotifyAdmins` returns the notices that are attempted.
- Reply texts, the `/rules` text and logging are not modelled. `Route` picks `OnRules`, which changes nothing.
- `env`, `get_channel_id`, `BOT_TOKEN` and a missing required variable are not modelled. `ADMIN_IDS` and `CHANNEL_ID` are passed in as text.
- The clock is not modelled. The seconds in the key (`epoch`) and the `isoformat` creation time are parameters in `Env`.
- Per-chat and per-user keying of conversations is not modelled. A `Session` is one user's conversation, and the handler table's ordering is in `Route`.
- Asynchrony and concurrent updates are not modelled. Updates are handled one at a time.
- The webhook and polling runner, and `build_app`'s application object, are not modelled beyond the handler table.
- Strings.ParseInt: reads an optional sign and ASCII digits only. Python's `int()` also accepts `_` separators and non-ASCII decimal digits, and those are not modelled.
- Strings.IsSpace: lists the code points Python's `str.isspace()` accepts. The model has no Unicode database, so the list is written out.
- The photo sizes of a message are a list of file ids. The model keeps no resolution data, and "best resolution" is taken to be the last size, as in the code.
