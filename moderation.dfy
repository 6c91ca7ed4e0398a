/**
 * The moderation queue: submissions waiting for a moderator, keyed by
 * `"<user id>_<seconds>"`, and the approve / reject buttons that
 * publish a submission to the channel or drop it.
 *
 * The queue is the dictionary the bot keeps in its submissions file; here
 * it is the field of a `Store` object. Whether the channel post and the
 * moderator's acknowledgement go through are parameters (`postOk`,
 * `ackOk`), since they are calls to the messaging provider.
 */
module Moderation {
  import opened Optional
  import opened Strings
  import opened Admins
  import opened Listing

  /** One queued submission: who sent it, a snapshot of their record, and when. */
  datatype Submission = Submission(userId: int, username: Option<string>, data: Record, createdAt: string)

  type Db = map<string, Submission>

  /**
   * The key of a submission: the sender's id and the whole seconds of the
   * clock reading, joined by `_`. The code reads the naive UTC time as
   * local time, so `epoch` is the epoch second shifted by the host's zone
   * offset; only its being one number per second matters here.
   */
  function SubmissionKey(userId: int, epoch: int): string {
    ShowInt(userId) + "_" + ShowInt(epoch)
  }

  /** Two strings glued at a separator neither head contains come apart the same way. */
  lemma SplitAtSeparator(a: string, b: string, c: string, d: string, sep: char)
    requires sep !in a && sep !in c
    requires a + [sep] + b == c + [sep] + d
    ensures a == c && b == d
  {
    var s, t := a + [sep] + b, c + [sep] + d;
    assert b == d by {
      AfterFirstOfPrefix(a, sep, b);
      AfterFirstOfPrefix(c, sep, d);
    }
    assert |a| == |c|;
    assert a == c by {
      assert a == s[..|a|];
      assert c == t[..|c|];
    }
  }

  /**
   * Keys identify the sender and the second: two submissions share a key
   * exactly when the same user submitted twice within one second
   * (and then the later one overwrites the earlier).
   */
  lemma SubmissionKeyInjective(u1: int, e1: int, u2: int, e2: int)
    ensures SubmissionKey(u1, e1) == SubmissionKey(u2, e2) <==> u1 == u2 && e1 == e2
  {
    if SubmissionKey(u1, e1) == SubmissionKey(u2, e2) {
      var a, b, c, d := ShowInt(u1), ShowInt(e1), ShowInt(u2), ShowInt(e2);
      assert '_' !in a && '_' !in c;
      assert a + ['_'] + b == c + ['_'] + d;
      SplitAtSeparator(a, b, c, d, '_');
      ShowIntInjective(u1, u2);
      ShowIntInjective(e1, e2);
    }
  }

  // ---------------------------------------------------------------------------
  // The buttons under a submission
  // ---------------------------------------------------------------------------

  const ApprovePrefix: string := "approve:"
  const RejectPrefix: string := "reject:"

  /** Callback data of the approve button for the submission `id`. */
  function ApproveData(id: string): string {
    ApprovePrefix + id
  }

  /** Callback data of the reject button for the submission `id`. */
  function RejectData(id: string): string {
    RejectPrefix + id
  }

  /** What a callback asks of the moderation handler. */
  datatype Action = Approve(id: string) | Reject(id: string) | Unrouted

  /**
   * The callback pattern `^(approve:|reject:)` and the id after the first
   * `:`. Data matching neither prefix never reaches the handler.
   */
  function ParseAction(data: string): (a: Action)
    ensures a.Approve? <==> StartsWith(data, ApprovePrefix)
    ensures a.Reject? <==> !StartsWith(data, ApprovePrefix) && StartsWith(data, RejectPrefix)
    ensures a.Approve? ==> data == ApprovePrefix + a.id
    ensures a.Reject? ==> data == RejectPrefix + a.id
  {
    if StartsWith(data, ApprovePrefix) then
      assert data == "approve" + [':'] + data[8..];
      AfterFirstOfPrefix("approve", ':', data[8..]);
      Approve(AfterFirst(data, ':'))
    else if StartsWith(data, RejectPrefix) then
      assert data == "reject" + [':'] + data[7..];
      AfterFirstOfPrefix("reject", ':', data[7..]);
      Reject(AfterFirst(data, ':'))
    else Unrouted
  }

  /** The buttons sent to the moderators lead back to the submission they were made for. */
  lemma ParseButtons(id: string)
    ensures ParseAction(ApproveData(id)) == Approve(id)
    ensures ParseAction(RejectData(id)) == Reject(id)
  {
    assert StartsWith(ApproveData(id), ApprovePrefix);
    var r := RejectData(id);
    assert r[0] == 'r';
    assert !StartsWith(r, ApprovePrefix);
    assert StartsWith(r, RejectPrefix);
  }

  // ---------------------------------------------------------------------------
  // Moderating
  // ---------------------------------------------------------------------------

  /** The moderator's acknowledgement (the edited button message). */
  datatype Reply =
    | Ignored              // the callback is not a moderation button
    | Forbidden            // "Недостаточно прав."
    | NotFound             // "Заявка не найдена или уже обработана."
    | Published(channel: string)
    | PublishError         // "Ошибка публикации: …"
    | Rejected             // "❌ Отклонено и удалено."

  /** The queue after a callback, the reply, and what (if anything) went out to the channel. */
  datatype Outcome = Outcome(db: Db, reply: Reply, posted: Option<Publication>)

  /**
   * `moderation_handler` on the queue `db`, for the moderators `admins`.
   * Non-moderators are refused before anything else. Approving an unknown
   * id reports it as not found. Approving a known one posts its listing
   * and, once the post and the acknowledgement both went through, drops
   * it; any failure keeps it queued. Rejecting drops the id if queued and
   * never posts.
   */
  function Moderate(db: Db, admins: seq<int>, caller: int, data: string, channel: string,
                    postOk: bool, ackOk: bool): Outcome
  {
    var a := ParseAction(data);
    if a.Unrouted? then Outcome(db, Ignored, None)
    else if caller !in admins then Outcome(db, Forbidden, None)
    else if a.Reject? then Outcome(db - {a.id}, Rejected, None)
    else if a.id !in db then Outcome(db, NotFound, None)
    else
      var pub := PublicationOf(db[a.id].data);
      if !postOk then Outcome(db, PublishError, None)
      else if !ackOk then Outcome(db, PublishError, Some(pub))
      else Outcome(db - {a.id}, Published(channel), Some(pub))
  }

  /**
   * Moderation only ever removes entries, and only the one the button
   * names, and only for a moderator; nothing is posted except the listing
   * of a queued submission a moderator approved, and a "published" reply
   * means it was posted and dequeued.
   */
  lemma ModerationEffects(db: Db, admins: seq<int>, caller: int, data: string, channel: string,
                          postOk: bool, ackOk: bool)
    ensures var o := Moderate(db, admins, caller, data, channel, postOk, ackOk);
            var a := ParseAction(data);
      && o.db.Keys <= db.Keys && (forall k :: k in o.db ==> o.db[k] == db[k])
      && (a.Unrouted? ==> o == Outcome(db, Ignored, None))
      && (!a.Unrouted? && caller !in admins ==> o == Outcome(db, Forbidden, None))
      && (o.db != db ==> caller in admins && !a.Unrouted? && a.id in db && o.db == db - {a.id})
      && (o.posted.Some? ==>
            caller in admins && postOk && a.Approve? && a.id in db &&
            o.posted == Some(PublicationOf(db[a.id].data)))
      && (o.reply.Published? ==> o.posted.Some? && o.db == db - {a.id})
  {
  }

  /** A moderator approving a queued submission publishes exactly its listing and dequeues it. */
  lemma ApproveQueued(db: Db, admins: seq<int>, caller: int, key: string, channel: string)
    requires caller in admins && key in db
    ensures Moderate(db, admins, caller, ApproveData(key), channel, true, true)
         == Outcome(db - {key}, Published(channel), Some(PublicationOf(db[key].data)))
  {
    ParseButtons(key);
  }

  /** A second approval of the same submission finds nothing and posts nothing. */
  lemma ApproveTwice(db: Db, admins: seq<int>, caller: int, key: string, channel: string,
                     postOk: bool, ackOk: bool)
    requires caller in admins && key in db
    ensures var o1 := Moderate(db, admins, caller, ApproveData(key), channel, true, true);
            Moderate(o1.db, admins, caller, ApproveData(key), channel, postOk, ackOk)
              == Outcome(o1.db, NotFound, None)
  {
    ParseButtons(key);
  }

  /**
   * When the post goes through but the acknowledgement fails, the
   * listing is out and the submission stays queued, so approving it again
   * posts the same listing a second time.
   */
  lemma AckFailureRepublishes(db: Db, admins: seq<int>, caller: int, key: string, channel: string)
    requires caller in admins && key in db
    ensures var o1 := Moderate(db, admins, caller, ApproveData(key), channel, true, false);
            var o2 := Moderate(o1.db, admins, caller, ApproveData(key), channel, true, true);
            o1.db == db && o1.reply == PublishError &&
            o1.posted == Some(PublicationOf(db[key].data)) && o2.posted == o1.posted
  {
    ParseButtons(key);
  }

  /** A failed post changes nothing: the submission can be approved again. */
  lemma PostFailureKeepsQueue(db: Db, admins: seq<int>, caller: int, key: string, channel: string, ackOk: bool)
    requires caller in admins
    ensures Moderate(db, admins, caller, ApproveData(key), channel, false, ackOk).db == db
    ensures Moderate(db, admins, caller, ApproveData(key), channel, false, ackOk).posted == None
  {
    ParseButtons(key);
  }

  /** Rejecting removes the id whether or not it was queued, never posts, and is idempotent. */
  lemma RejectDrops(db: Db, admins: seq<int>, caller: int, key: string, channel: string,
                    postOk: bool, ackOk: bool)
    requires caller in admins
    ensures var o := Moderate(db, admins, caller, RejectData(key), channel, postOk, ackOk);
            o == Outcome(db - {key}, Rejected, None) &&
            Moderate(o.db, admins, caller, RejectData(key), channel, postOk, ackOk) == o
  {
    ParseButtons(key);
    assert db - {key} - {key} == db - {key};
  }

  // ---------------------------------------------------------------------------
  // The queue itself
  // ---------------------------------------------------------------------------

  /** The submissions file, as the dictionary it holds. */
  class Store {
    var db: Db

    /** An empty queue (a missing submissions file). */
    constructor()
      ensures db == map[]
    {
      db := map[];
    }

    /** `db[key] = sub`: adds or overwrites one entry, leaving the others. */
    method Insert(key: string, sub: Submission)
      modifies this
      ensures db == old(db)[key := sub]
    {
      db := db[key := sub];
    }

    /**
     * `moderation_handler` behind the callback pattern: checks the caller
     * against the setting `adminsRaw`, then approves or rejects.
     */
    method HandleCallback(adminsRaw: string, caller: int, data: string, channel: string,
                          postOk: bool, ackOk: bool) returns (reply: Reply, posted: Option<Publication>)
      modifies this
      ensures var o := Moderate(old(db), AdminIds(adminsRaw), caller, data, channel, postOk, ackOk);
              db == o.db && reply == o.reply && posted == o.posted
    {
      posted := None;
      var action := ParseAction(data);
      if action.Unrouted? {
        reply := Ignored;
        return;
      }
      var admin := IsAdmin(adminsRaw, caller);
      if !admin {
        reply := Forbidden;
        return;
      }
      var id := action.id;
      if action.Approve? {
        if id !in db {
          reply := NotFound;
          return;
        }
        var listing := db[id].data;
        var text := FormatListing(listing.fields);
        var pub := Compose(listing.media.GetOr([]), text);
        if !postOk {
          reply := PublishError;
          return;
        }
        posted := Some(pub);
        if !ackOk {
          reply := PublishError;
          return;
        }
        db := db - {id};
        reply := Published(channel);
      } else {
        if id in db {
          db := db - {id};
        }
        reply := Rejected;
      }
    }
  }
}
