/**
 * The submission form: the conversation that asks for the nine answers,
 * collects photos and videos, shows a preview and hands the listing to the
 * moderators.
 *
 * One user's side of it is a `Session`: the conversation state the
 * conversation handler keeps for the user (none when no conversation is
 * active) and the user's record (`user_data`). `Dispatch` is the handler
 * table the application registers, applied to one incoming update.
 */
module Form {
  import opened Optional
  import opened Strings
  import opened Admins
  import opened Listing
  import opened Moderation

  /** The conversation states, numbered 0 to 10. */
  datatype State = Cat | Item | Size | Condition | Price | City | Delivery | Contact | Description | Media | Confirm
  {
    /** The state's number. */
    function Code(): (c: nat)
      ensures c <= 10
    {
      match this
      case Cat => 0
      case Item => 1
      case Size => 2
      case Condition => 3
      case Price => 4
      case City => 5
      case Delivery => 6
      case Contact => 7
      case Description => 8
      case Media => 9
      case Confirm => 10
    }

    /** The nine states that wait for a text answer. */
    predicate IsTextStep() {
      Code() < 9
    }

    /** The key the answer given in this state is stored under. */
    function Key(): string
      requires IsTextStep()
    {
      StepKeys[Code()]
    }

    /** The state the answer leads to. */
    function Next(): (s: State)
      requires IsTextStep()
      ensures s.Code() == Code() + 1
    {
      OfCode(Code() + 1)
    }
  }

  /** The state numbered `c`. */
  function OfCode(c: nat): (s: State)
    requires c <= 10
    ensures s.Code() == c
  {
    if c == 0 then Cat
    else if c == 1 then Item
    else if c == 2 then Size
    else if c == 3 then Condition
    else if c == 4 then Price
    else if c == 5 then City
    else if c == 6 then Delivery
    else if c == 7 then Contact
    else if c == 8 then Description
    else if c == 9 then Media
    else Confirm
  }

  /** The answer keys, in the order the questions are asked. */
  const StepKeys: seq<string> :=
    ["category", "item", "size", "condition", "price", "city", "delivery", "contact", "description"]

  /** How many answers have been given on reaching `s`. */
  function Answered(s: State): nat {
    if s.Code() < 9 then s.Code() else 9
  }

  /** The keys answered on reaching `s`. */
  function AnsweredKeys(s: State): set<string> {
    set i | 0 <= i < Answered(s) :: StepKeys[i]
  }

  /** The states are numbered one to one, and the nine answers go under nine different keys. */
  lemma StatesAndKeys(s: State, t: State)
    ensures s.Code() == t.Code() ==> s == t
    ensures s.IsTextStep() && t.IsTextStep() && s.Key() == t.Key() ==> s == t
  {
  }

  /** Answering in `s` adds exactly the key of `s` to the answered keys. */
  lemma AnswerAddsKey(s: State)
    requires s.IsTextStep()
    ensures AnsweredKeys(s.Next()) == AnsweredKeys(s) + {s.Key()}
  {
    var n := s.Code();
    assert Answered(s) == n && Answered(s.Next()) == n + 1;
    forall k | k in AnsweredKeys(s.Next())
      ensures k in AnsweredKeys(s) + {s.Key()}
    {
      var i :| 0 <= i < n + 1 && StepKeys[i] == k;
      if i < n {
        assert k in AnsweredKeys(s);
      }
    }
    forall k | k in AnsweredKeys(s) + {s.Key()}
      ensures k in AnsweredKeys(s.Next())
    {
      if k == s.Key() {
        assert StepKeys[n] == k;
      } else {
        var i :| 0 <= i < n && StepKeys[i] == k;
        assert StepKeys[i] == k;
      }
    }
  }

  /** The media step and the confirmation have all nine answers. */
  lemma AllAnswered()
    ensures AnsweredKeys(Media) == AnsweredKeys(Confirm) == set i | 0 <= i < |StepKeys| :: StepKeys[i]
  {
    assert Answered(Media) == Answered(Confirm) == |StepKeys|;
  }

  /**
   * From the media step on, all nine answers are in the record, so the
   * listing shows each answer and never the dash.
   */
  lemma CompleteAnswers(s: State, fields: Fields)
    requires fields.Keys == AnsweredKeys(s) && !s.IsTextStep()
    ensures forall i :: 0 <= i < |StepKeys| ==> StepKeys[i] in fields
    ensures forall i :: 0 <= i < |StepKeys| ==> Field(fields, StepKeys[i]) == fields[StepKeys[i]]
  {
    assert Answered(s) == 9;
    forall i | 0 <= i < |StepKeys|
      ensures StepKeys[i] in fields
    {
      assert StepKeys[i] in AnsweredKeys(s);
    }
  }

  // ---------------------------------------------------------------------------
  // Updates and which handler takes them
  // ---------------------------------------------------------------------------

  /** An incoming update, as far as the handlers tell them apart. */
  datatype Update =
    | CommandMsg(name: string)        // a message starting with a bot command, such as `/start`
    | TextMsg(text: string)           // a text message that is not a command
    | PhotoMsg(sizes: seq<string>)    // the file ids of a photo's sizes, smallest first
    | VideoMsg(fileId: string)
    | CallbackQuery(data: string)     // an inline button press
    | OtherMsg                        // anything else: stickers, documents, ...

  /**
   * `^(w1|w2|...)$` as Python's `re` applies it: the whole text is one of
   * the words, where `$` also matches just before a final line break.
   */
  predicate FullMatch(t: string, words: seq<string>) {
    t in words || (t != [] && t[|t| - 1] == '\n' && t[..|t| - 1] in words)
  }

  const DoneWords: seq<string> := ["готово", "Готово", "done", "Done"]
  const ConfirmWords: seq<string> := ["submit", "edit"]

  /** The anchored pattern accepts a word, alone or followed by one line break, and nothing else. */
  lemma FullMatchWords(t: string, words: seq<string>)
    ensures FullMatch(t, words) <==> exists w :: w in words && (t == w || t == w + "\n")
  {
    if t != [] && t[|t| - 1] == '\n' && t[..|t| - 1] in words {
      assert t == t[..|t| - 1] + "\n";
    }
    if exists w :: w in words && t == w + "\n" {
      var w :| w in words && t == w + "\n";
      assert t[..|t| - 1] == w;
    }
  }

  /** The handlers an update can reach. */
  datatype Handler =
    | OnStart | OnCancel | OnAnswer(step: State) | OnMedia | OnDone | OnConfirm
    | OnRules | OnModerate | Unhandled

  /** The handler the conversation state `s` has for `u`, if any. */
  function StateHandler(s: State, u: Update): Handler {
    if s.IsTextStep() then (if u.TextMsg? then OnAnswer(s) else Unhandled)
    else if s == Media then
      if (u.PhotoMsg? && u.sizes != []) || u.VideoMsg? then OnMedia
      else if u.TextMsg? && FullMatch(u.text, DoneWords) then OnDone
      else Unhandled
    else if u.CallbackQuery? && FullMatch(u.data, ConfirmWords) then OnConfirm
    else Unhandled
  }

  /**
   * Which handler takes `u` when the conversation is in `phase`: first the
   * conversation (`/start` from anywhere, since re-entry is allowed, then
   * the current state's handlers, then `/cancel`), then `/rules`, then the
   * moderation buttons.
   */
  function Route(phase: Option<State>, u: Update): (h: Handler)
    ensures u == CommandMsg("start") <==> h == OnStart
    ensures h == OnCancel <==> phase.Some? && u == CommandMsg("cancel")
    ensures h.OnAnswer? <==> phase.Some? && phase.value.IsTextStep() && u.TextMsg?
    ensures h.OnAnswer? ==> phase == Some(h.step)
    ensures h == OnMedia <==> phase == Some(Media) && ((u.PhotoMsg? && u.sizes != []) || u.VideoMsg?)
    ensures h == OnDone <==> phase == Some(Media) && u.TextMsg? && FullMatch(u.text, DoneWords)
    ensures h == OnConfirm <==> phase == Some(Confirm) && u.CallbackQuery? && FullMatch(u.data, ConfirmWords)
    ensures h == OnRules <==> u == CommandMsg("rules")
    ensures h == OnModerate <==> u.CallbackQuery? && !ParseAction(u.data).Unrouted?
    ensures phase.None? ==> h in {OnStart, OnRules, OnModerate, Unhandled}
  {
    if u == CommandMsg("start") then OnStart
    else if phase.Some? && StateHandler(phase.value, u) != Unhandled then StateHandler(phase.value, u)
    else if phase.Some? && u == CommandMsg("cancel") then OnCancel
    else if u == CommandMsg("rules") then OnRules
    else if u.CallbackQuery? && (StartsWith(u.data, ApprovePrefix) || StartsWith(u.data, RejectPrefix)) then OnModerate
    else Unhandled
  }

  /** A command never answers a question, and outside the media step nothing ends the media step. */
  lemma CommandsNeverAnswer(phase: Option<State>, name: string)
    ensures !Route(phase, CommandMsg(name)).OnAnswer?
    ensures Route(phase, CommandMsg(name)) !in {OnMedia, OnDone, OnConfirm}
  {
  }

  // ---------------------------------------------------------------------------
  // Notifying the moderators
  // ---------------------------------------------------------------------------

  /**
   * What one moderator is sent for a submission: the listing, and the
   * approve and reject buttons, under the single photo or video or, for an
   * album, in a separate text message (`buttonsApart`). The moderation
   * handler acknowledges by editing the text of the message the pressed
   * button sits on; a photo or video has a caption and no text, so that
   * edit can only go through when the buttons are apart.
   */
  datatype Notice = Notice(chat: int, pub: Publication, approve: string, reject: string, buttonsApart: bool)

  function NoticeTo(chat: int, pub: Publication, key: string): Notice {
    Notice(chat, pub, ApproveData(key), RejectData(key), pub.Album?)
  }

  /** One notice per moderator, in the order of the setting. */
  function NoticesFor(ids: seq<int>, pub: Publication, key: string): seq<Notice> {
    seq(|ids|, i requires 0 <= i < |ids| => NoticeTo(ids[i], pub, key))
  }

  lemma NoticesForSnoc(ids: seq<int>, i: int, pub: Publication, key: string)
    requires 0 <= i < |ids|
    ensures NoticesFor(ids[..i + 1], pub, key) == NoticesFor(ids[..i], pub, key) + [NoticeTo(ids[i], pub, key)]
  {
  }

  /** The loop over the moderators; a delivery that fails is skipped, so every one is attempted. */
  method NotifyAdmins(ids: seq<int>, r: Record, key: string) returns (notices: seq<Notice>)
    ensures notices == NoticesFor(ids, PublicationOf(r), key)
  {
    var text := FormatListing(r.fields);
    var list := r.media.GetOr([]);
    notices := [];
    var i := 0;
    while i < |ids|
      invariant 0 <= i <= |ids|
      invariant notices == NoticesFor(ids[..i], PublicationOf(r), key)
    {
      var pub := Compose(list, text);
      assert pub == PublicationOf(r);
      NoticesForSnoc(ids, i, pub, key);
      notices := notices + [Notice(ids[i], pub, ApproveData(key), RejectData(key), pub.Album?)];
      i := i + 1;
    }
    assert ids[..i] == ids;
  }

  /**
   * What each moderator's buttons do once the submission is queued, when a
   * moderator presses them and the channel post goes through. When the
   * buttons sit in a separate message, approving posts exactly the preview
   * the user confirmed and dequeues it. When they sit on a single photo or
   * video, the acknowledgement cannot go through, so approving posts the
   * listing and leaves the queue as it was: every further press posts it
   * again. Either reject button drops the submission.
   */
  lemma NoticesLeadToSubmission(db: Db, ids: seq<int>, caller: int, key: string, sub: Submission,
                                channel: string, i: int, ackOk: bool)
    requires caller in ids && 0 <= i < |ids|
    ensures var pub := PublicationOf(sub.data);
            var n := NoticesFor(ids, pub, key)[i];
            var db1 := db[key := sub];
      && n.chat == ids[i] && n.pub == pub
      && (n.buttonsApart <==> |sub.data.media.GetOr([])| != 1)
      && (n.buttonsApart ==>
            Moderate(db1, ids, caller, n.approve, channel, true, true)
              == Outcome(db1 - {key}, Published(channel), Some(pub)))
      && (!n.buttonsApart ==>
            Moderate(db1, ids, caller, n.approve, channel, true, false)
              == Outcome(db1, PublishError, Some(pub)))
      && Moderate(db1, ids, caller, n.reject, channel, true, ackOk).db == db - {key}
  {
    var pub := PublicationOf(sub.data);
    var db1 := db[key := sub];
    var n := NoticesFor(ids, pub, key)[i];
    assert n == NoticeTo(ids[i], pub, key);
    assert n.buttonsApart <==> |sub.data.media.GetOr([])| != 1 by {
      LayoutKeepsMedia(sub.data.media.GetOr([]), FormatListing(sub.data.fields));
    }
    assert Moderate(db1, ids, caller, n.approve, channel, true, true)
        == Outcome(db1 - {key}, Published(channel), Some(pub)) by {
      ApproveQueued(db1, ids, caller, key, channel);
    }
    assert Moderate(db1, ids, caller, n.approve, channel, true, false)
        == Outcome(db1, PublishError, Some(pub)) by {
      AckFailureRepublishes(db1, ids, caller, key, channel);
    }
    assert Moderate(db1, ids, caller, n.reject, channel, true, ackOk).db == db - {key} by {
      RejectDrops(db1, ids, caller, key, channel, true, ackOk);
      assert db1 - {key} == db - {key};
    }
  }

  // ---------------------------------------------------------------------------
  // One user's session
  // ---------------------------------------------------------------------------

  /**
   * The parameters the handlers take from outside: settings, the caller,
   * the clock, and the provider's outcomes. `replyOk` is whether the
   * handler's message to the user (its reply, or the edit of the button
   * message) goes through; a failed one raises and ends the handler there.
   * `postOk` and `ackOk` are the channel post and the moderator's
   * acknowledgement.
   */
  datatype Env = Env(adminsRaw: string, channel: string, userId: int, username: Option<string>,
                     epoch: int, createdAt: string, replyOk: bool, postOk: bool, ackOk: bool)

  /** What handling an update sent out or did besides changing the session. */
  datatype Effect =
    | NoEffect                                  // no handler, or only a text reply
    | Previewed(preview: Option<Publication>)
    | Submitted(key: string, notices: seq<Notice>)
    | Moderated(reply: Reply, posted: Option<Publication>)

  /** What a media message appends: the largest size of a photo, or the video. */
  function Collected(u: Update): (r: seq<MediaItem>)
    ensures |r| <= 1
    ensures r != [] <==> (u.PhotoMsg? && u.sizes != []) || u.VideoMsg?
    ensures r != [] && u.PhotoMsg? ==> r[0] == MediaItem(Photo, u.sizes[|u.sizes| - 1])
    ensures r != [] && u.VideoMsg? ==> r[0] == MediaItem(Video, u.fileId)
  {
    if u.PhotoMsg? && u.sizes != [] then [MediaItem(Photo, u.sizes[|u.sizes| - 1])]
    else if u.VideoMsg? then [MediaItem(Video, u.fileId)]
    else []
  }

  /**
   * A well-formed session. Outside a conversation the record is empty.
   * Inside, the answers are those of the questions asked so far, and at a
   * question also its own answer when that was stored but the next question
   * could not be sent; each answer is stripped; media is a list, empty
   * before the media step and non-empty at confirmation.
   */
  ghost predicate WellFormed(phase: Option<State>, fields: Fields, media: Option<seq<MediaItem>>) {
    match phase
    case None => fields == map[] && media == None
    case Some(s) =>
      (fields.Keys == AnsweredKeys(s) || (s.IsTextStep() && fields.Keys == AnsweredKeys(s.Next()))) &&
      (forall k :: k in fields ==> Strip(fields[k]) == fields[k]) &&
      media.Some? &&
      (s.IsTextStep() ==> media.value == []) &&
      (s == Confirm ==> media.value != [])
  }

  /** `/start` begins a well-formed session. */
  lemma StartWellFormed()
    ensures WellFormed(Some(Cat), map[], Some([]))
  {
    assert AnsweredKeys(Cat) == {};
  }

  /**
   * Storing the answer to the current question keeps the session well
   * formed, whether it then moves to the next question or stays.
   */
  lemma AnswerWellFormed(step: State, fields: Fields, media: Option<seq<MediaItem>>, text: string, moved: bool)
    requires step.IsTextStep() && WellFormed(Some(step), fields, media)
    ensures WellFormed(if moved then Some(step.Next()) else Some(step), fields[step.Key() := Strip(text)], media)
  {
    AnswerAddsKey(step);
    StripIdempotent(text);
  }

  /** Collecting media in the media step keeps the session well formed. */
  lemma CollectWellFormed(fields: Fields, media: Option<seq<MediaItem>>, items: seq<MediaItem>)
    requires WellFormed(Some(Media), fields, media)
    ensures WellFormed(Some(Media), fields, Some(media.value + items))
  {
  }

  /** Moving from the media step to confirmation with some media keeps the session well formed. */
  lemma ConfirmWellFormed(fields: Fields, media: Option<seq<MediaItem>>)
    requires WellFormed(Some(Media), fields, media) && media.value != []
    ensures WellFormed(Some(Confirm), fields, media)
  {
    AllAnswered();
  }

  class Session {
    /** The state the conversation is in; `None` when no conversation is active. */
    var phase: Option<State>
    /** The text answers in the record. */
    var fields: Fields
    /** The record's media list; `None` when the record has none. */
    var media: Option<seq<MediaItem>>

    /** The session is well formed: see `WellFormed`. */
    ghost predicate Valid()
      reads this
    {
      WellFormed(phase, fields, media)
    }

    /** The record as a value. */
    function Snapshot(): Record
      reads this
    {
      Record(fields, media)
    }

    /** A user who has not talked to the bot yet. */
    constructor()
      ensures phase == None && fields == map[] && media == None
      ensures Valid()
    {
      phase := None;
      fields := map[];
      media := None;
    }

    /**
     * `start`: greets first, then a fresh record with an empty media list
     * and the first question; a failed greeting leaves everything as it was.
     */
    method Start(replyOk: bool)
      modifies this
      ensures replyOk ==> phase == Some(Cat) && fields == map[] && media == Some([])
      ensures !replyOk ==> phase == old(phase) && fields == old(fields) && media == old(media)
      ensures replyOk || old(Valid()) ==> Valid()
    {
      if replyOk {
        fields := map[];
        media := Some([]);
        phase := Some(Cat);
        StartWellFormed();
      }
    }

    /** `cancel`: replies first, then clears the record and ends the conversation. */
    method Cancel(replyOk: bool)
      modifies this
      ensures replyOk ==> phase == None && fields == map[] && media == None
      ensures !replyOk ==> phase == old(phase) && fields == old(fields) && media == old(media)
      ensures replyOk || old(Valid()) ==> Valid()
    {
      if replyOk {
        fields := map[];
        media := None;
        phase := None;
      }
    }

    /**
     * The nine `set_*` handlers: stores the stripped answer under the key
     * of `step`, changes no other entry, then asks the next question and
     * moves to it; when that question cannot be sent the answer stays
     * stored and the state stays at `step`.
     */
    method Answer(step: State, text: string, replyOk: bool)
      requires step.IsTextStep()
      modifies this
      ensures fields == old(fields)[step.Key() := Strip(text)]
      ensures media == old(media)
      ensures phase == (if replyOk then Some(step.Next()) else old(phase))
      ensures old(Valid()) && old(phase) == Some(step) ==> Valid()
    {
      ghost var wasValid := Valid() && phase == Some(step);
      fields := fields[step.Key() := Strip(text)];
      if replyOk {
        phase := Some(step.Next());
      }
      if wasValid {
        AnswerWellFormed(step, old(fields), media, text, replyOk);
      }
    }

    /** `collect_media`: appends the photo or video, if any, keeps the earlier items, and stays in the media step. */
    method CollectMedia(u: Update)
      modifies this
      ensures media == Some(old(media).GetOr([]) + Collected(u))
      ensures fields == old(fields) && phase == Some(Media)
      ensures old(Valid()) && old(phase) == Some(Media) ==> Valid()
    {
      var list := media.GetOr([]);
      if u.PhotoMsg? && u.sizes != [] {
        list := list + [MediaItem(Photo, u.sizes[|u.sizes| - 1])];
      } else if u.VideoMsg? {
        list := list + [MediaItem(Video, u.fileId)];
      } else {
        assert list + Collected(u) == list;
      }
      media := Some(list);
      phase := Some(Media);
    }

    /**
     * `media_done`: without media, asks for a photo and stays in the media
     * step; otherwise shows the preview and asks for confirmation. When the
     * message to the user fails, nothing is shown and the state stays.
     */
    method MediaDone(replyOk: bool) returns (preview: Option<Publication>)
      modifies this
      ensures fields == old(fields) && media == old(media)
      ensures old(media).GetOr([]) == [] ==>
                preview == None && phase == (if replyOk then Some(Media) else old(phase))
      ensures old(media).GetOr([]) != [] && replyOk ==>
                phase == Some(Confirm) && preview == Some(PublicationOf(Snapshot()))
      ensures old(media).GetOr([]) != [] && !replyOk ==> phase == old(phase) && preview == None
      ensures old(Valid()) && old(phase) == Some(Media) ==> Valid()
    {
      ghost var wasValid := Valid() && phase == Some(Media);
      var list := media.GetOr([]);
      preview := None;
      if |list| == 0 {
        if replyOk {
          phase := Some(Media);
        }
      } else if replyOk {
        var text := FormatListing(fields);
        var pub := Compose(list, text);
        preview := Some(pub);
        phase := Some(Confirm);
        if wasValid {
          ConfirmWellFormed(fields, media);
        }
      }
    }

    /**
     * `confirm_handler`. "edit" clears the record and ends the
     * conversation. Anything else submits: a snapshot of the record is
     * queued under the sender's key (overwriting an entry with the same
     * key), every moderator is sent a notice, and the record is cleared.
     * The record is cleared only after the button message is edited, so
     * when that edit fails the record and the state stay: the submission
     * is already queued and announced, and pressing submit again queues
     * and announces it once more.
     */
    method HandleConfirm(store: Store, data: string, env: Env) returns (notices: seq<Notice>)
      modifies this, store
      ensures data == "edit" ==> store.db == old(store.db) && notices == []
      ensures data != "edit" ==>
                var key := SubmissionKey(env.userId, env.epoch);
                store.db == old(store.db)[key := Submission(env.userId, env.username, old(Snapshot()), env.createdAt)] &&
                notices == NoticesFor(AdminIds(env.adminsRaw), PublicationOf(old(Snapshot())), key)
      ensures env.replyOk ==> phase == None && fields == map[] && media == None
      ensures !env.replyOk ==> phase == old(phase) && fields == old(fields) && media == old(media)
      ensures env.replyOk || old(Valid()) ==> Valid()
    {
      notices := [];
      if data != "edit" {
        var record := Record(fields, media);
        var key := SubmissionKey(env.userId, env.epoch);
        store.Insert(key, Submission(env.userId, env.username, record, env.createdAt));
        var ids := GetAdminIds(env.adminsRaw);
        notices := NotifyAdmins(ids, record, key);
      }
      if env.replyOk {
        fields := map[];
        media := None;
        phase := None;
      }
    }

    /**
     * One update through the handler table: the handler `Route` picks runs,
     * with that handler's effect on the session and the queue, and the
     * session stays well formed whatever arrives.
     */
    method Dispatch(u: Update, store: Store, env: Env) returns (h: Handler, effect: Effect)
      requires Valid()
      modifies this, store
      ensures Valid()
      ensures h == Route(old(phase), u)
      ensures h !in {OnConfirm, OnModerate} ==> store.db == old(store.db)
      ensures h in {Unhandled, OnRules, OnModerate} ==>
                phase == old(phase) && fields == old(fields) && media == old(media)
      ensures h in {Unhandled, OnRules, OnStart, OnCancel, OnMedia} || h.OnAnswer? ==> effect == NoEffect
      ensures h in {OnStart, OnCancel} && !env.replyOk ==>
                phase == old(phase) && fields == old(fields) && media == old(media)
      ensures h == OnStart && env.replyOk ==> phase == Some(Cat) && fields == map[] && media == Some([])
      ensures h == OnCancel && env.replyOk ==> phase == None && fields == map[] && media == None
      ensures h.OnAnswer? ==>
                fields == old(fields)[h.step.Key() := Strip(u.text)] && media == old(media) &&
                phase == (if env.replyOk then Some(h.step.Next()) else old(phase))
      ensures h == OnMedia ==>
                media == Some(old(media).value + Collected(u)) && fields == old(fields) && phase == Some(Media)
      ensures h == OnDone ==>
                var shown := old(media).value != [] && env.replyOk;
                fields == old(fields) && media == old(media) &&
                phase == (if shown then Some(Confirm) else Some(Media)) &&
                effect == Previewed(if shown then Some(PublicationOf(old(Snapshot()))) else None)
      ensures h == OnConfirm && u.data == "edit" ==> store.db == old(store.db) && effect == NoEffect
      ensures h == OnConfirm && u.data != "edit" ==>
                var key := SubmissionKey(env.userId, env.epoch);
                store.db == old(store.db)[key := Submission(env.userId, env.username, old(Snapshot()), env.createdAt)] &&
                effect == Submitted(key, NoticesFor(AdminIds(env.adminsRaw), PublicationOf(old(Snapshot())), key))
      ensures h == OnConfirm && env.replyOk ==> phase == None && fields == map[] && media == None
      ensures h == OnConfirm && !env.replyOk ==> phase == old(phase) && fields == old(fields) && media == old(media)
      ensures h == OnModerate ==>
                var o := Moderate(old(store.db), AdminIds(env.adminsRaw), env.userId, u.data,
                                  env.channel, env.postOk, env.ackOk);
                store.db == o.db && effect == Moderated(o.reply, o.posted)
    {
      h := Route(phase, u);
      effect := NoEffect;
      match h
      case OnStart =>
        Start(env.replyOk);
      case OnCancel =>
        Cancel(env.replyOk);
      case OnAnswer(step) =>
        Answer(step, u.text, env.replyOk);
      case OnMedia =>
        CollectMedia(u);
      case OnDone =>
        var preview := MediaDone(env.replyOk);
        effect := Previewed(preview);
      case OnConfirm =>
        var notices := HandleConfirm(store, u.data, env);
        if u.data != "edit" {
          effect := Submitted(SubmissionKey(env.userId, env.epoch), notices);
        }
      case OnRules =>
      case OnModerate =>
        var reply, posted := store.HandleCallback(env.adminsRaw, env.userId, u.data, env.channel,
                                                  env.postOk, env.ackOk);
        effect := Moderated(reply, posted);
      case Unhandled =>
    }
  }
}
