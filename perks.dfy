/**
 * The pattern plugins/greetings.js and plugins/personal.js share for a
 * perk bought in the Scribe Shop (a greeting, a bio, a page): the owner
 * sets its text, and staff remove it forcibly, which also spends the item.
 * A store is a user-id keyed object of strings.
 */
module Perks {
  import opened Wrappers
  import opened JsText
  import opened Utils
  import Q = QuillLedger

  /** `store[userid]` is truthy: present and not empty. */
  predicate IsSet(store: map<string, string>, userid: string) {
    userid in store && store[userid] != ""
  }

  /** `quills.getAccount(userid).inventory[itemId]` is truthy. */
  predicate Owns(accounts: map<string, Q.Account>, userid: string, itemId: string) {
    itemId in Q.AccountOf(accounts, userid).inventory
  }

  /** The accounts after `getAccount(userid)`, which creates an absent account. */
  function Touched(accounts: map<string, Q.Account>, userid: string): map<string, Q.Account> {
    accounts[userid := Q.AccountOf(accounts, userid)]
  }

  /** The ledger's key order after `getAccount(userid)`. */
  function TouchedOrder(order: seq<string>, accounts: map<string, Q.Account>, userid: string): seq<string> {
    if userid in accounts then order else order + [userid]
  }

  /** How a set command ends. */
  datatype SetReply = NeedsItem | Syntax | TooLong | PerkSet(text: string)

  /**
   * A set command: the caller must own the item; the text is trimmed, must
   * not be empty nor longer than `maxLength` when there is one, and is
   * stored under the caller.
   */
  function SetPerk(store: map<string, string>, accounts: map<string, Q.Account>, userid: string, message: string,
                   itemId: string, maxLength: Option<nat>): (SetReply, map<string, string>, map<string, Q.Account>)
  {
    var accounts' := Touched(accounts, userid);
    var text := Trim(message);
    if !Owns(accounts, userid, itemId) then (NeedsItem, store, accounts')
    else if text == "" then (Syntax, store, accounts')
    else if maxLength.Some? && |text| > maxLength.value then (TooLong, store, accounts')
    else (PerkSet(text), store[userid := text], accounts')
  }

  /** How a forced removal ends. */
  datatype Removal = Denied | NotSet | Removed(target: string)

  /**
   * A forced removal as written: the item looked up is the target's, but
   * the text checked and deleted is the caller's, and the item spent is the
   * caller's too.
   */
  function RemoveAsWritten(store: map<string, string>, accounts: map<string, Q.Account>, userid: string,
                           message: string, itemId: string, hasPerms: char -> bool)
    : (Removal, map<string, string>, map<string, Q.Account>)
  {
    if !hasPerms('%') then (Denied, store, accounts)
    else
      var target := ToId(message);
      var accounts' := Touched(accounts, target);
      if !(Owns(accounts, target, itemId) && IsSet(store, userid)) then (NotSet, store, accounts')
      else (Removed(target), store - {userid}, Q.UsedItem(accounts', userid, itemId).1)
  }

  /** A forced removal as meant: the target's text is checked and deleted, and the target's item spent. */
  function Remove(store: map<string, string>, accounts: map<string, Q.Account>, message: string, itemId: string,
                  hasPerms: char -> bool): (Removal, map<string, string>, map<string, Q.Account>)
  {
    if !hasPerms('%') then (Denied, store, accounts)
    else
      var target := ToId(message);
      var accounts' := Touched(accounts, target);
      if !(Owns(accounts, target, itemId) && IsSet(store, target)) then (NotSet, store, accounts')
      else (Removed(target), store - {target}, Q.UsedItem(accounts', target, itemId).1)
  }

  /**
   * Setting stores exactly the trimmed text under the caller, and only for
   * an owner with a non-empty text within the limit; otherwise the store
   * stays. Only the caller's account may be created.
   */
  lemma {:induction false} SetPerkStoresTrimmed(store: map<string, string>, accounts: map<string, Q.Account>,
                                                userid: string, message: string, itemId: string,
                                                maxLength: Option<nat>, other: string)
    ensures var r := SetPerk(store, accounts, userid, message, itemId, maxLength);
      var text := Trim(message);
      && (r.0.PerkSet? <==> Owns(accounts, userid, itemId) && text != "" && (maxLength.None? || |text| <= maxLength.value))
      && (r.0.PerkSet? ==> r.0.text == text && r.1 == store[userid := text] && IsSet(r.1, userid))
      && (!r.0.PerkSet? ==> r.1 == store)
      && (other != userid ==> (other in r.1 <==> other in store) && Q.AccountOf(r.2, other) == Q.AccountOf(accounts, other))
      && r.2.Keys == accounts.Keys + {userid}
  {
    var text := Trim(message);
    var r := SetPerk(store, accounts, userid, message, itemId, maxLength);
    assert r.2 == Touched(accounts, userid);
    if Owns(accounts, userid, itemId) && text != "" && (maxLength.None? || |text| <= maxLength.value) {
      assert r == (PerkSet(text), store[userid := text], Touched(accounts, userid));
    } else {
      assert r.1 == store && !r.0.PerkSet?;
    }
  }

  /**
   * As written, staff removing a target's perk remove their own instead:
   * with a target who owns the item and has a text set, and a caller who
   * has one too, the caller's text goes and the target's stays, while the
   * removal as meant takes the target's and leaves the caller's.
   */
  lemma {:induction false} RemovalHitsCallerAsWritten(store: map<string, string>, accounts: map<string, Q.Account>,
                                                      userid: string, message: string, itemId: string,
                                                      hasPerms: char -> bool)
    requires hasPerms('%') && ToId(message) != userid
    requires Owns(accounts, ToId(message), itemId) && IsSet(store, ToId(message)) && IsSet(store, userid)
    ensures var (reply, store', _) := RemoveAsWritten(store, accounts, userid, message, itemId, hasPerms);
      reply == Removed(ToId(message)) && userid !in store' && IsSet(store', ToId(message))
    ensures var (reply, store', _) := Remove(store, accounts, message, itemId, hasPerms);
      reply == Removed(ToId(message)) && ToId(message) !in store' && IsSet(store', userid)
  {
  }

  /**
   * As meant, a removal takes exactly the target's text and one use of the
   * target's item, and happens only for staff and a target who owns the
   * item and has a text set; every other user keeps their text and account.
   */
  lemma {:induction false} RemoveTakesTargetOnly(store: map<string, string>, accounts: map<string, Q.Account>,
                                                 message: string, itemId: string, hasPerms: char -> bool, other: string)
    ensures var (reply, store', accounts') := Remove(store, accounts, message, itemId, hasPerms);
      var target := ToId(message);
      && (reply.Removed? <==> hasPerms('%') && Owns(accounts, target, itemId) && IsSet(store, target))
      && (reply.Removed? ==> reply.target == target && store' == store - {target}
                             && Q.UsedItem(Touched(accounts, target), target, itemId).0 != -1)
      && (!reply.Removed? ==> store' == store)
      && (other != target ==> (other in store' <==> other in store) && Q.AccountOf(accounts', other) == Q.AccountOf(accounts, other))
  {
    var target := ToId(message);
    if hasPerms('%') && Owns(accounts, target, itemId) && IsSet(store, target) {
      Q.UseItemCountsDown(Touched(accounts, target), target, itemId, other, itemId);
    }
  }
}
