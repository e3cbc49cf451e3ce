/**
 * plugins/greetings.js: a greeting bought in the shop is sent to the room
 * each time the plugin's onJoin runs for its owner. Owners set it, staff remove it.
 */
module Greetings {
  import opened Wrappers
  import opened JsText
  import opened Utils
  import opened Perks
  import Q = QuillLedger

  const ItemId: string := "greeting"
  const MaxGreeting: nat := 80

  /** The notice for a greeting over the limit, which the source passes to sendPM as the recipient. */
  const TooLongNotice: string := "Greetings cannot exceed 80 characters."

  /** onJoin: the line sent to the room, if the user has a greeting. */
  function GreetingOnJoin(greetings: map<string, string>, userid: string): (line: Option<string>)
    ensures line.Some? <==> IsSet(greetings, userid)
    ensures line.Some? ==> line.value == "(" + userid + ") " + greetings[userid]
  {
    if IsSet(greetings, userid) then Some("(" + userid + ") " + greetings[userid]) else None
  }

  /** setgreeting, as the shared set command with the 80-character limit. */
  function SetGreetingSpec(greetings: map<string, string>, accounts: map<string, Q.Account>, userid: string, message: string)
    : (SetReply, map<string, string>, map<string, Q.Account>)
  {
    SetPerk(greetings, accounts, userid, message, ItemId, Some(MaxGreeting))
  }

  /**
   * Who receives the reply to setgreeting as written: every reply goes to
   * the caller, except the over-the-limit notice, which is passed as the
   * recipient with no message.
   */
  function ReplyRecipientAsWritten(userid: string, reply: SetReply): string {
    if reply == TooLong then TooLongNotice else userid
  }

  /** `storage.getJSON('greetings')`. */
  class GreetingStore {
    var greetings: map<string, string>

    constructor (stored: map<string, string>)
      ensures greetings == stored
    {
      greetings := stored;
    }

    /** onJoin */
    method OnJoin(userid: string) returns (line: Option<string>)
      ensures line == GreetingOnJoin(greetings, userid)
    {
      if userid in greetings && greetings[userid] != "" {
        return Some("(" + userid + ") " + greetings[userid]);
      }
      return None;
    }

    /** setgreeting; `to` is who the reply is sent to, the caller in every case as meant. */
    method SetGreeting(userid: string, message: string, ledger: Q.Quills) returns (reply: SetReply, to: string)
      requires ledger.Valid()
      modifies this, ledger
      ensures ledger.Valid()
      ensures (reply, greetings, ledger.accounts) == SetGreetingSpec(old(greetings), old(ledger.accounts), userid, message)
      ensures to == userid
      ensures ledger.order == TouchedOrder(old(ledger.order), old(ledger.accounts), userid)
      ensures ledger.shop == old(ledger.shop)
    {
      to := userid;
      var account := ledger.GetAccount(userid);
      if ItemId !in account.inventory {
        return NeedsItem, to;
      }
      var text := Trim(message);
      if text == "" {
        return Syntax, to;
      }
      if |text| > MaxGreeting {
        return TooLong, to;
      }
      greetings := greetings[userid := text];
      reply := PerkSet(text);
    }

    /** deletegreeting, removing the target's greeting (see RemoveAsWritten for the code as written). */
    method DeleteGreeting(message: string, hasPerms: char -> bool, ledger: Q.Quills) returns (reply: Removal)
      requires ledger.Valid()
      modifies this, ledger
      ensures ledger.Valid()
      ensures (reply, greetings, ledger.accounts) == Remove(old(greetings), old(ledger.accounts), message, ItemId, hasPerms)
      ensures ledger.order == if hasPerms('%') then TouchedOrder(old(ledger.order), old(ledger.accounts), ToId(message)) else old(ledger.order)
      ensures ledger.shop == old(ledger.shop)
    {
      if !hasPerms('%') {
        return Denied;
      }
      var target := ToId(message);
      var account := ledger.GetAccount(target);
      if !(ItemId in account.inventory && target in greetings && greetings[target] != "") {
        return NotSet;
      }
      greetings := greetings - {target};
      var _ := ledger.UseItem(target, ItemId);
      reply := Removed(target);
    }
  }

  /**
   * As written, the notice for a greeting over 80 characters is sent to a
   * user named by the notice itself, never to the caller (SetGreeting
   * sends it to the caller). No greeting is stored either way.
   */
  lemma {:induction false} TooLongNoticeMisaddressedAsWritten(greetings: map<string, string>, accounts: map<string, Q.Account>,
                                                             userid: string, message: string)
    requires Owns(accounts, userid, ItemId) && |Trim(message)| > MaxGreeting && ' ' !in userid
    ensures SetGreetingSpec(greetings, accounts, userid, message).0 == TooLong
    ensures SetGreetingSpec(greetings, accounts, userid, message).1 == greetings
    ensures ReplyRecipientAsWritten(userid, SetGreetingSpec(greetings, accounts, userid, message).0) != userid
  {
    var text := Trim(message);
    assert text != "" && |text| > MaxGreeting;
    assert SetGreetingSpec(greetings, accounts, userid, message).0 == TooLong;
    assert TooLongNotice[9] == ' ';
  }

  /** A greeting that was set is what the plugin's onJoin sends for its owner, and a removed one is no longer sent. */
  lemma {:induction false} SetGreetingIsSentOnJoin(greetings: map<string, string>, accounts: map<string, Q.Account>,
                                                   userid: string, message: string, hasPerms: char -> bool)
    requires SetGreetingSpec(greetings, accounts, userid, message).0.PerkSet?
    ensures var greetings' := SetGreetingSpec(greetings, accounts, userid, message).1;
      && GreetingOnJoin(greetings', userid) == Some("(" + userid + ") " + Trim(message))
      && 1 <= |Trim(message)| <= MaxGreeting
    ensures Remove(greetings, accounts, userid, ItemId, hasPerms).0.Removed? ==>
      GreetingOnJoin(Remove(greetings, accounts, userid, ItemId, hasPerms).1, ToId(userid)) == None
  {
    SetPerkStoresTrimmed(greetings, accounts, userid, message, ItemId, Some(MaxGreeting), userid);
  }
}
