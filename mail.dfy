/**
 * plugins/mail.js: offline messages. `mail` files a message in the
 * target's inbox, a pruning pass at load drops mail older than a month,
 * and the plugin's onJoin hook delivers the inbox and empties it. The clock is a
 * parameter; the private messages sent are returned.
 */
module OfflineMail {
  import opened JsText
  import opened Utils

  /** 31 days in milliseconds. */
  const Month: int := 31 * 24 * 60 * 60 * 1000
  const MaxLength: nat := 250
  const InboxLimit: nat := 5

  datatype Mail = Mail(sender: string, message: string, time: int)

  /** How the `mail` command ends. */
  datatype MailReply = Syntax | TooLong(length: nat) | InboxFull(target: string) | Scheduled(target: string)

  /** `[target, ...toSend] = message.split(',')`: the id of the text before the first comma, and the rest trimmed. */
  function MailArgs(message: string): (string, string) {
    var parts := Split(message, ',');
    (ToId(parts[0]), Trim(Join(parts[1..], ',')))
  }

  /** The inbox of `userid`, `[]` when there is none. */
  function InboxOf(store: map<string, seq<Mail>>, userid: string): seq<Mail> {
    if userid in store then store[userid] else []
  }

  /** The `mail` command over the store. */
  function ScheduleSpec(store: map<string, seq<Mail>>, userid: string, message: string, now: int)
    : (MailReply, map<string, seq<Mail>>)
  {
    var (target, toSend) := MailArgs(message);
    if target == "" || toSend == "" then (Syntax, store)
    else if |toSend| > MaxLength then (TooLong(|toSend|), store)
    else if |InboxOf(store, target)| >= InboxLimit then (InboxFull(target), store)
    else (Scheduled(target), store[target := InboxOf(store, target) + [Mail(userid, toSend, now)]])
  }

  /** `messages.filter(({time}) => now - time < MONTH)` */
  function KeepRecent(messages: seq<Mail>, now: int): (kept: seq<Mail>)
    ensures |kept| <= |messages|
    ensures forall i :: 0 <= i < |kept| ==> now - kept[i].time < Month && kept[i] in messages
    ensures forall m :: m in messages && now - m.time < Month ==> m in kept
  {
    if messages == [] then []
    else
      var rest := KeepRecent(messages[..|messages| - 1], now);
      var last := messages[|messages| - 1];
      assert messages == messages[..|messages| - 1] + [last];
      if now - last.time < Month then rest + [last] else rest
  }

  /** Pruning: every user keeps an entry (an empty array is truthy), holding only the recent mail. */
  function PruneSpec(store: map<string, seq<Mail>>, now: int): map<string, seq<Mail>> {
    map u | u in store :: KeepRecent(store[u], now)
  }

  /** onJoin: the inbox in stored order, and the store without it. */
  function DeliverSpec(store: map<string, seq<Mail>>, userid: string): (seq<Mail>, map<string, seq<Mail>>) {
    if userid in store then (store[userid], store - {userid}) else ([], store)
  }

  predicate InboxesBounded(store: map<string, seq<Mail>>) {
    forall u :: u in store ==> |store[u]| <= InboxLimit
  }

  /** `storage.getJSON('mail')`: user id to inbox. */
  class MailStore {
    var mail: map<string, seq<Mail>>

    constructor (stored: map<string, seq<Mail>>)
      ensures mail == stored
    {
      mail := stored;
    }

    /** The `mail` command. */
    method Schedule(userid: string, message: string, now: int) returns (reply: MailReply)
      modifies this
      ensures (reply, mail) == ScheduleSpec(old(mail), userid, message, now)
    {
      var parts := Split(message, ',');
      var target := ToId(parts[0]);
      var toSend := Trim(Join(parts[1..], ','));
      if target == "" || toSend == "" {
        return Syntax;
      }
      if |toSend| > MaxLength {
        return TooLong(|toSend|);
      }
      var inbox := if target in mail then mail[target] else [];
      if |inbox| >= InboxLimit {
        return InboxFull(target);
      }
      mail := mail[target := inbox + [Mail(userid, toSend, now)]];
      reply := Scheduled(target);
    }

    /** The pruning loop run when the plugin loads. */
    method Prune(now: int)
      modifies this
      ensures mail == PruneSpec(old(mail), now)
    {
      var pending := mail.Keys;
      while pending != {}
        invariant pending <= mail.Keys && mail.Keys == old(mail).Keys
        invariant forall u :: u in mail ==> mail[u] == if u in pending then old(mail)[u] else KeepRecent(old(mail)[u], now)
        decreases pending
      {
        var user :| user in pending;
        var messages := KeepRecent(mail[user], now);
        // `if (messages)` holds for every array, so the deleting branch never runs.
        mail := mail[user := messages];
        pending := pending - {user};
      }
      assert mail.Keys == PruneSpec(old(mail), now).Keys;
    }

    /** onJoin: the mail delivered, in the order it was filed. */
    method OnJoin(userid: string) returns (delivered: seq<Mail>)
      modifies this
      ensures (delivered, mail) == DeliverSpec(old(mail), userid)
    {
      delivered := [];
      if userid in mail {
        var inbox := mail[userid];
        var i := 0;
        while i < |inbox|
          invariant 0 <= i <= |inbox| && delivered == inbox[..i]
        {
          delivered := delivered + [inbox[i]];
          i := i + 1;
        }
        assert inbox[..i] == inbox;
        mail := mail - {userid};
      }
    }
  }

  /** The target is the id of the text before the first comma, and the message is everything after it, trimmed. */
  lemma {:induction false} MailArgsSplitAtFirstComma(target: string, rest: string)
    requires ',' !in target
    ensures MailArgs(target + "," + rest) == (ToId(target), Trim(rest))
  {
    SplitAtFirst(target, ',', rest);
    assert target + "," + rest == target + [','] + rest;
    var parts := Split(target + "," + rest, ',');
    assert parts[1..] == Split(rest, ',');
    JoinSplit(rest, ',');
  }

  /** Without a comma there is no message, and the command only shows its syntax. */
  lemma {:induction false} MailWithoutCommaIsRejected(store: map<string, seq<Mail>>, userid: string, message: string, now: int)
    requires ',' !in message
    ensures ScheduleSpec(store, userid, message, now) == (Syntax, store)
  {
    SplitNoSeparator(message, ',');
    assert Split(message, ',')[1..] == [];
  }

  /**
   * A scheduled message goes last in the target's inbox and nothing else
   * changes; any refusal changes nothing; an inbox never grows past five.
   */
  lemma {:induction false} ScheduleAppendsOne(store: map<string, seq<Mail>>, userid: string, message: string, now: int)
    ensures !ScheduleSpec(store, userid, message, now).0.Scheduled? ==> ScheduleSpec(store, userid, message, now).1 == store
    ensures ScheduleSpec(store, userid, message, now).0.Scheduled? ==>
      var t := MailArgs(message).0;
      var toSend := MailArgs(message).1;
      && ScheduleSpec(store, userid, message, now) == (Scheduled(t), store[t := InboxOf(store, t) + [Mail(userid, toSend, now)]])
      && t != "" && 1 <= |toSend| <= MaxLength
      && |InboxOf(store, t)| < InboxLimit
    ensures InboxesBounded(store) ==> InboxesBounded(ScheduleSpec(store, userid, message, now).1)
  {
    var t := MailArgs(message).0;
    var toSend := MailArgs(message).1;
    if t != "" && toSend != "" && |toSend| <= MaxLength && |InboxOf(store, t)| < InboxLimit {
      var after := store[t := InboxOf(store, t) + [Mail(userid, toSend, now)]];
      assert ScheduleSpec(store, userid, message, now) == (Scheduled(t), after);
      assert |after[t]| <= InboxLimit;
    }
  }

  /** Pruning keeps every user, keeps exactly the mail younger than a month, and never lets an inbox grow. */
  lemma {:induction false} PruneKeepsRecent(store: map<string, seq<Mail>>, now: int, u: string, m: Mail)
    requires u in store
    ensures u in PruneSpec(store, now)
    ensures m in PruneSpec(store, now)[u] <==> m in store[u] && now - m.time < Month
    ensures InboxesBounded(store) ==> InboxesBounded(PruneSpec(store, now))
  {
    var kept := PruneSpec(store, now)[u];
    if m in kept {
      var i :| 0 <= i < |kept| && kept[i] == m;
    }
  }

  /** A user whose mail is all older than a month keeps an empty inbox rather than none. */
  lemma {:induction false} PrunedInboxStays(store: map<string, seq<Mail>>, now: int, u: string)
    requires u in store && forall i :: 0 <= i < |store[u]| ==> now - store[u][i].time >= Month
    ensures PruneSpec(store, now)[u] == []
  {
    NothingRecent(store[u], now);
  }

  lemma {:induction false} NothingRecent(messages: seq<Mail>, now: int)
    requires forall i :: 0 <= i < |messages| ==> now - messages[i].time >= Month
    ensures KeepRecent(messages, now) == []
  {
    if messages != [] {
      NothingRecent(messages[..|messages| - 1], now);
    }
  }

  /** Mail filed for a user is delivered when the plugin's onJoin next runs for them, after the mail already waiting, and the inbox is then gone. */
  lemma {:induction false} ScheduledMailIsDelivered(store: map<string, seq<Mail>>, userid: string, message: string, now: int)
    requires ScheduleSpec(store, userid, message, now).0.Scheduled?
    ensures var (reply, after) := ScheduleSpec(store, userid, message, now);
      var (delivered, left) := DeliverSpec(after, reply.target);
      && delivered == InboxOf(store, reply.target) + [Mail(userid, MailArgs(message).1, now)]
      && reply.target !in left
      && (forall u :: u != reply.target ==> (u in left <==> u in store))
  {
  }
}
