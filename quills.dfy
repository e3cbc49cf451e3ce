/**
 * quills.js: the quill ledger and the Scribe Shop. Accounts are created on
 * first access, credited and debited (never below zero), items are used up,
 * and `purchase` validates an order, counts down to what the balance can pay
 * for, charges and stocks the inventory.
 */
module QuillLedger {
  import opened Wrappers
  import opened OrderedMaps
  import opened JsText

  /** A shop record: `uses` 0 stands for null (not a limited item). */
  datatype ShopItem = ShopItem(name: string, price: nat, description: string, uses: int, unique: bool)

  /** An inventory record; a key absent from the JS object is None. */
  datatype Owned = Owned(amount: Option<int>, uses: Option<int>)

  datatype Account = Account(balance: int, totalEarned: int, inventory: map<string, Owned>)

  datatype Receipt = Receipt(amount: int, price: int, balance: int)

  /** The messages `purchase` throws. */
  datatype PurchaseError =
    | UnknownItem
    | AlreadyOwned
    | NothingToBuy
    | CannotAfford
    | OnlyAfford(amount: int, price: int)

  const NewAccount := Account(0, 0, map[])

  /** The account `getAccount` returns: the stored one, or a fresh empty one. */
  function AccountOf(accounts: map<string, Account>, userid: string): Account {
    if userid in accounts then accounts[userid] else NewAccount
  }

  /**
   * useItem over the accounts: the uses left and the new accounts. The
   * account is created if absent; a record with a use to spare keeps the
   * rest, any other record is deleted.
   */
  function UsedItem(accounts: map<string, Account>, userid: string, itemId: string): (int, map<string, Account>) {
    var a := AccountOf(accounts, userid);
    if itemId !in a.inventory then (-1, accounts[userid := a])
    else
      var uses := a.inventory[itemId].uses;
      if uses.Some? && uses.value != 0 && uses.value - 1 != 0 then
        (uses.value - 1, accounts[userid := a.(inventory := a.inventory[itemId := a.inventory[itemId].(uses := Some(uses.value - 1))])])
      else (0, accounts[userid := a.(inventory := a.inventory - {itemId})])
  }

  /** `balance - amount`, with the debit cut down to the balance when it would go below zero. */
  function Debited(balance: int, amount: int): (b: int)
    ensures b >= 0
    ensures b == balance - amount || (b == 0 && balance - amount < 0)
  {
    if balance - amount < 0 then balance - balance else balance - amount
  }

  /**
   * The part of `purchase` after the account lookup, in closed form: the
   * countdown loop stops at the largest count the balance pays for, which is
   * `balance / price`.
   */
  function Buy(account: Account, item: ShopItem, itemId: string, amount: int): Result<(Receipt, Account), PurchaseError> {
    // every record made by addShopItem has a `unique` key, so any owned item is refused
    if itemId in account.inventory then Failure(AlreadyOwned)
    else
      var limited := item.uses != 0;
      var n := if limited then item.uses else amount;
      if n <= 0 then Failure(NothingToBuy)
      else
        var price := item.price * (if limited then 1 else n);
        if price > account.balance then Failure(Shortfall(item, account.balance))
        else
          var owned :=
            if !(limited || item.unique) then Owned(Some(n), None)
            else if limited then Owned(None, Some(item.uses))
            else Owned(None, None);
          var after := account.(balance := account.balance - price,
                                inventory := account.inventory[itemId := owned]);
          Success((Receipt(n, price, after.balance), after))
  }

  /**
   * The error for an order the balance does not cover: a limited item, or a
   * negative balance, cannot be afforded at all; otherwise the largest count
   * the balance pays for is named.
   */
  function Shortfall(item: ShopItem, balance: int): PurchaseError
    requires item.uses != 0 || item.price > 0 || balance < 0
  {
    if item.uses != 0 || balance < 0 then CannotAfford
    else
      var k := balance / item.price;
      OnlyAfford(k, item.price * k)
  }

  /** The ledger after addQuills(userid, amount). */
  function Credited(accounts: map<string, Account>, userid: string, amount: int): map<string, Account> {
    var a := AccountOf(accounts, userid);
    accounts[userid := a.(balance := a.balance + amount, totalEarned := a.totalEarned + amount)]
  }

  /** The ledger after addQuills(u, amount) for each u of `users` in turn. */
  function CreditedAll(accounts: map<string, Account>, users: seq<string>, amount: int): map<string, Account> {
    if users == [] then accounts
    else Credited(CreditedAll(accounts, users[..|users| - 1], amount), users[|users| - 1], amount)
  }

  function Count<T(==)>(s: seq<T>, x: T): nat {
    if s == [] then 0 else Count(s[..|s| - 1], x) + (if s[|s| - 1] == x then 1 else 0)
  }

  /** One addQuills changes only the credited user's account, by `amount` on both counters. */
  lemma CreditedOne(accounts: map<string, Account>, v: string, amount: int, u: string)
    ensures var a := AccountOf(accounts, u);
      AccountOf(Credited(accounts, v, amount), u)
        == if u == v then a.(balance := a.balance + amount, totalEarned := a.totalEarned + amount) else a
    ensures u in Credited(accounts, v, amount) <==> u in accounts || u == v
  {
  }

  /** Crediting a list of users: each one's balance and totalEarned grow by `amount` per appearance. */
  lemma {:induction false} CreditedAllBalance(accounts: map<string, Account>, users: seq<string>, amount: int, u: string)
    ensures var a := AccountOf(accounts, u);
      var b := AccountOf(CreditedAll(accounts, users, amount), u);
      && b.balance == a.balance + amount * Count(users, u)
      && b.totalEarned == a.totalEarned + amount * Count(users, u)
      && b.inventory == a.inventory
      && (u in CreditedAll(accounts, users, amount) <==> u in accounts || u in users)
  {
    if users != [] {
      var init := users[..|users| - 1];
      var last := users[|users| - 1];
      CreditedAllBalance(accounts, init, amount, u);
      CreditedOne(CreditedAll(accounts, init, amount), last, amount, u);
      var c := Count(init, u);
      var d := if last == u then 1 else 0;
      assert Count(users, u) == c + d;
      assert amount * (c + d) == amount * c + amount * d;
      assert users == init + [last];
    }
  }

  /** Insertion into a list ordered by totalEarned, descending, after every entry that earned as much. */
  function InsertByEarned(e: (string, Account), sorted: seq<(string, Account)>): seq<(string, Account)> {
    if sorted == [] then [e]
    else if sorted[0].1.totalEarned >= e.1.totalEarned then [sorted[0]] + InsertByEarned(e, sorted[1..])
    else [e] + sorted
  }

  /** The stable sort `getTop` applies, as repeated insertion. */
  function SortByEarned(entries: seq<(string, Account)>): seq<(string, Account)> {
    if entries == [] then []
    else InsertByEarned(entries[|entries| - 1], SortByEarned(entries[..|entries| - 1]))
  }

  predicate SortedByEarned(s: seq<(string, Account)>) {
    forall i, j :: 0 <= i < j < |s| ==> s[i].1.totalEarned >= s[j].1.totalEarned
  }

  /** slice(0, limit); an absent limit keeps everything. */
  function Take<T>(s: seq<T>, limit: Option<nat>): seq<T> {
    if limit.Some? && limit.value < |s| then s[..limit.value] else s
  }

  /**
   * A key an object lists as an integer: the decimal text of a number below
   * 2^32 - 1, with no sign and no leading zero.
   */
  predicate IsArrayIndex(k: string) {
    && k != []
    && AllDigits(k, 10)
    && (k[0] != '0' || |k| == 1)
    && DigitsValue(k, 10) < 0xFFFF_FFFF
  }

  /** The number an integer key stands for (0 for any other key, which is never compared). */
  function IndexValue(k: string): nat {
    if AllDigits(k, 10) then DigitsValue(k, 10) else 0
  }

  /** The integer keys, in creation order. */
  function IndexKeys(order: seq<string>): (r: seq<string>)
    ensures forall k :: k in r ==> IsArrayIndex(k)
  {
    if order == [] then []
    else if IsArrayIndex(order[|order| - 1]) then IndexKeys(order[..|order| - 1]) + [order[|order| - 1]]
    else IndexKeys(order[..|order| - 1])
  }

  /** The other keys, in creation order. */
  function NamedKeys(order: seq<string>): (r: seq<string>)
    ensures forall k :: k in r ==> !IsArrayIndex(k)
  {
    if order == [] then []
    else if IsArrayIndex(order[|order| - 1]) then NamedKeys(order[..|order| - 1])
    else NamedKeys(order[..|order| - 1]) + [order[|order| - 1]]
  }

  predicate Ascending(keys: seq<string>) {
    forall i, j :: 0 <= i < j < |keys| ==> IndexValue(keys[i]) <= IndexValue(keys[j])
  }

  /** Insertion into integer keys ordered by value. */
  function InsertByIndex(k: string, sorted: seq<string>): (r: seq<string>)
    ensures multiset(r) == multiset(sorted) + multiset{k}
  {
    if sorted == [] then [k]
    else if IndexValue(sorted[0]) <= IndexValue(k) then
      assert sorted == [sorted[0]] + sorted[1..];
      [sorted[0]] + InsertByIndex(k, sorted[1..])
    else [k] + sorted
  }

  function SortByIndex(keys: seq<string>): (r: seq<string>)
    ensures multiset(r) == multiset(keys)
  {
    if keys == [] then []
    else
      var init := keys[..|keys| - 1];
      assert keys == init + [keys[|keys| - 1]];
      InsertByIndex(keys[|keys| - 1], SortByIndex(init))
  }

  /**
   * The order Object.entries lists an object's own keys in: the integer keys
   * first, by value, then the others in creation order.
   */
  function PropertyOrder(order: seq<string>): (keys: seq<string>)
    ensures multiset(keys) == multiset(order)
    ensures forall k :: k in keys <==> k in order
  {
    SplitKeysIsPermutation(order);
    var keys := SortByIndex(IndexKeys(order)) + NamedKeys(order);
    assert forall k :: k in keys <==> k in multiset(order);
    keys
  }

  /** Each key with its value, in the order of `keys`. */
  function Entries(keys: seq<string>, accounts: map<string, Account>): (es: seq<(string, Account)>)
    requires forall u :: u in keys ==> u in accounts
    ensures |es| == |keys|
    ensures forall i :: 0 <= i < |es| ==> es[i] == (keys[i], accounts[keys[i]])
  {
    if keys == [] then []
    else Entries(keys[..|keys| - 1], accounts) + [(keys[|keys| - 1], accounts[keys[|keys| - 1]])]
  }

  /** Object.entries: each key with its value, in property order. */
  function EntriesOf(order: seq<string>, accounts: map<string, Account>): seq<(string, Account)>
    requires forall u :: u in order ==> u in accounts
  {
    Entries(PropertyOrder(order), accounts)
  }

  /** Filtering splits the keys into the integer ones and the others, each kept once. */
  lemma {:induction false} SplitKeysIsPermutation(order: seq<string>)
    ensures multiset(IndexKeys(order)) + multiset(NamedKeys(order)) == multiset(order)
  {
    if order != [] {
      var init := order[..|order| - 1];
      SplitKeysIsPermutation(init);
      assert order == init + [order[|order| - 1]];
    }
  }

  lemma {:induction false} InsertByIndexAscending(k: string, s: seq<string>)
    requires Ascending(s)
    ensures Ascending(InsertByIndex(k, s))
  {
    if s != [] && IndexValue(s[0]) <= IndexValue(k) {
      InsertByIndexAscending(k, s[1..]);
      var r := InsertByIndex(k, s[1..]);
      forall x | x in r
        ensures IndexValue(s[0]) <= IndexValue(x)
      {
        assert x in multiset(r);
        if x != k {
          assert x in multiset(s[1..]);
        }
      }
    }
  }

  lemma {:induction false} SortByIndexAscending(keys: seq<string>)
    ensures Ascending(SortByIndex(keys))
  {
    if keys != [] {
      var init := keys[..|keys| - 1];
      SortByIndexAscending(init);
      InsertByIndexAscending(keys[|keys| - 1], SortByIndex(init));
    }
  }

  /**
   * Property order: every integer key comes before every other key, the
   * integer keys rise in value, and the other keys keep creation order.
   */
  lemma PropertyOrderShape(order: seq<string>)
    ensures var keys := PropertyOrder(order);
      var n := |IndexKeys(order)|;
      && n <= |keys|
      && (forall i :: 0 <= i < n ==> IsArrayIndex(keys[i]))
      && (forall i :: n <= i < |keys| ==> !IsArrayIndex(keys[i]))
      && Ascending(keys[..n])
      && keys[n..] == NamedKeys(order)
  {
    var idx := IndexKeys(order);
    var sorted := SortByIndex(idx);
    SortByIndexAscending(idx);
    assert |sorted| == |multiset(sorted)| == |multiset(idx)| == |idx|;
    var keys := PropertyOrder(order);
    assert keys[..|idx|] == sorted;
    forall i | 0 <= i < |idx|
      ensures IsArrayIndex(keys[i])
    {
      assert keys[i] == sorted[i];
      assert sorted[i] in multiset(idx);
    }
  }

  lemma {:induction false} NoIndexKeys(order: seq<string>)
    requires forall k :: k in order ==> !IsArrayIndex(k)
    ensures IndexKeys(order) == [] && NamedKeys(order) == order
  {
    if order != [] {
      var init := order[..|order| - 1];
      NoIndexKeys(init);
      assert order == init + [order[|order| - 1]];
    }
  }

  /** Without integer keys, Object.entries keeps creation order. */
  lemma NamedKeysKeepOrder(order: seq<string>)
    requires forall k :: k in order ==> !IsArrayIndex(k)
    ensures PropertyOrder(order) == order
  {
    NoIndexKeys(order);
    assert SortByIndex([]) == [];
  }

  class Quills {
    /** `data`: the stored accounts, and the order their keys were created in. */
    var accounts: map<string, Account>
    var order: seq<string>
    var shop: map<string, ShopItem>

    ghost predicate Valid()
      reads this
    {
      Distinct(order) && (forall u :: u in accounts <==> u in order)
    }

    constructor (accounts: map<string, Account>, order: seq<string>)
      requires Distinct(order) && (forall u :: u in accounts <==> u in order)
      ensures Valid()
      ensures this.accounts == accounts && this.order == order && shop == map[]
    {
      this.accounts := accounts;
      this.order := order;
      shop := map[];
    }

    /** addShopItem: an id already in the shop is reported and left as it was. */
    method AddShopItem(id: string, name: string, price: nat, description: string, uses: int, unique: bool)
      returns (duplicate: bool)
      modifies this
      ensures duplicate == (id in old(shop))
      ensures shop == if duplicate then old(shop) else old(shop)[id := ShopItem(name, price, description, uses, unique)]
      ensures accounts == old(accounts) && order == old(order)
    {
      if id in shop {
        return true;
      }
      shop := shop[id := ShopItem(name, price, description, uses, unique)];
      duplicate := false;
    }

    /** getAccount: creates {balance 0, totalEarned 0, inventory {}} only for an unknown user. */
    method GetAccount(userid: string) returns (account: Account)
      requires Valid()
      modifies this
      ensures Valid()
      ensures account == AccountOf(old(accounts), userid)
      ensures accounts == old(accounts)[userid := account]
      ensures order == if userid in old(accounts) then old(order) else old(order) + [userid]
      ensures shop == old(shop)
    {
      if userid !in accounts {
        accounts := accounts[userid := NewAccount];
        order := order + [userid];
      }
      account := accounts[userid];
    }

    /** addQuills: balance and totalEarned both grow by `amount`; the new balance is returned. */
    method AddQuills(userid: string, amount: int) returns (balance: int)
      requires Valid()
      modifies this
      ensures Valid()
      ensures balance == AccountOf(old(accounts), userid).balance + amount
      ensures accounts == Credited(old(accounts), userid, amount)
      ensures order == if userid in old(accounts) then old(order) else old(order) + [userid]
      ensures shop == old(shop)
    {
      var account := GetAccount(userid);
      balance := account.balance + amount;
      accounts := accounts[userid := account.(balance := balance, totalEarned := account.totalEarned + amount)];
    }

    /** removeQuills: the debit is clamped to the balance; totalEarned is untouched. */
    method RemoveQuills(userid: string, amount: int) returns (balance: int)
      requires Valid()
      modifies this
      ensures Valid()
      ensures var a := AccountOf(old(accounts), userid);
        && balance == Debited(a.balance, amount)
        && accounts == old(accounts)[userid := a.(balance := balance)]
      ensures order == if userid in old(accounts) then old(order) else old(order) + [userid]
      ensures shop == old(shop)
    {
      var account := GetAccount(userid);
      var debit := amount;
      if account.balance - debit < 0 {
        debit := account.balance;
      }
      balance := account.balance - debit;
      accounts := accounts[userid := account.(balance := balance)];
    }

    /**
     * useItem: -1 for an item not owned; otherwise one use is spent, and the
     * item is deleted (returning 0) unless uses remain.
     */
    method UseItem(userid: string, itemId: string) returns (left: int)
      requires Valid()
      modifies this
      ensures Valid()
      ensures (left, accounts) == UsedItem(old(accounts), userid, itemId)
      ensures order == if userid in old(accounts) then old(order) else old(order) + [userid]
      ensures shop == old(shop)
    {
      var account := GetAccount(userid);
      if itemId !in account.inventory {
        return -1;
      }
      var item := account.inventory[itemId];
      if item.uses.Some? && item.uses.value != 0 {
        var uses := item.uses.value - 1;
        if uses != 0 {
          var kept := account.(inventory := account.inventory[itemId := item.(uses := Some(uses))]);
          accounts := accounts[userid := kept];
          assert accounts == old(accounts)[userid := kept];
          return uses;
        }
      }
      var emptied := account.(inventory := account.inventory - {itemId});
      accounts := accounts[userid := emptied];
      assert accounts == old(accounts)[userid := emptied];
      left := 0;
    }

    /** purchase: validate, count down to what the balance pays for, charge, stock the inventory. */
    method Purchase(userid: string, itemId: string, amount: int) returns (r: Result<Receipt, PurchaseError>)
      requires Valid()
      modifies this
      ensures Valid()
      ensures shop == old(shop)
      ensures itemId !in shop ==> r == Failure(UnknownItem) && accounts == old(accounts) && order == old(order)
      ensures itemId in shop ==>
        var a := AccountOf(old(accounts), userid);
        var b := Buy(a, shop[itemId], itemId, amount);
        && order == (if userid in old(accounts) then old(order) else old(order) + [userid])
        && (b.Success? ==> r == Success(b.value.0) && accounts == old(accounts)[userid := b.value.1])
        && (b.Failure? ==> r == Failure(b.error) && accounts == old(accounts)[userid := a])
    {
      if itemId !in shop {
        return Failure(UnknownItem);
      }
      var account := GetAccount(userid);
      var item := shop[itemId];
      ghost var b := Buy(account, item, itemId, amount);
      var quote := Quote(account, item, itemId, amount);
      if quote.Failure? {
        return Failure(quote.error);
      }
      var (n, price) := quote.value;
      var balance := RemoveQuills(userid, price);
      var owned := Owned(None, None);
      var limited := item.uses != 0;
      if !(limited || item.unique) {
        owned := owned.(amount := Some(0 + n));
      } else if limited {
        owned := owned.(uses := Some(item.uses));
      }
      var after := accounts[userid];
      ghost var charged := account.(balance := balance, inventory := account.inventory[itemId := owned]);
      assert after.(inventory := after.inventory[itemId := owned]) == charged;
      assert b == Success((Receipt(n, price, balance), charged));
      accounts := accounts[userid := after.(inventory := after.inventory[itemId := owned])];
      assert accounts == old(accounts)[userid := charged];
      r := Success(Receipt(n, price, balance));
    }

    /** The checks of purchase before anything is charged: the count and the price, or the error thrown. */
    method Quote(account: Account, item: ShopItem, itemId: string, amount: int) returns (q: Result<(int, int), PurchaseError>)
      ensures var b := Buy(account, item, itemId, amount);
        && (q.Failure? <==> b.Failure?)
        && (q.Failure? ==> q.error == b.error)
        && (q.Success? ==> q.value == (b.value.0.amount, b.value.0.price))
    {
      if itemId in account.inventory {
        return Failure(AlreadyOwned);
      }
      var limited := item.uses != 0;
      var n := amount;
      if limited {
        // the refill branch for an owned item is unreachable: owned items were refused above
        n := item.uses;
      }
      if n <= 0 {
        return Failure(NothingToBuy);
      }
      var price := item.price * (if limited then 1 else n);
      if price > account.balance {
        var e := ShortOrder(item, n, account.balance);
        return Failure(e);
      }
      q := Success((n, price));
    }

    /** The countdown of purchase when the order costs more than the balance. */
    method ShortOrder(item: ShopItem, amount: int, balance: int) returns (e: PurchaseError)
      requires amount > 0 && item.price * (if item.uses != 0 then 1 else amount) > balance
      ensures item.uses != 0 || item.price > 0 || balance < 0
      ensures e == Shortfall(item, balance)
    {
      var exceeding := true;
      var n := amount;
      var price := item.price;
      if item.uses == 0 {
        n, exceeding := Countdown(item.price, amount, balance);
        price := item.price * n;
      }
      if exceeding {
        return CannotAfford;
      }
      return OnlyAfford(n, price);
    }

    /** getTop: the accounts by totalEarned, highest first, ties in creation order, cut to `limit`. */
    method GetTop(limit: Option<nat>) returns (top: seq<(string, Account)>)
      requires Valid()
      ensures top == Take(SortByEarned(EntriesOf(order, accounts)), limit)
    {
      var entries := EntriesOf(order, accounts);
      var sorted := [];
      for i := 0 to |entries|
        invariant sorted == SortByEarned(entries[..i])
      {
        assert entries[..i + 1][..i] == entries[..i];
        sorted := InsertByEarned(entries[i], sorted);
      }
      assert entries[..|entries|] == entries;
      top := sorted;
      if limit.Some? && limit.value < |sorted| {
        top := sorted[..limit.value];
      }
    }
  }

  /**
   * The countdown loop of `purchase`: starting from an order the balance
   * cannot pay for, one fewer each pass until it can or nothing is left.
   */
  method Countdown(unitPrice: nat, amount: int, balance: int) returns (count: int, exceeding: bool)
    requires amount > 0 && unitPrice * amount > balance
    ensures 0 <= count < amount
    ensures exceeding <==> balance < 0
    ensures exceeding ==> count == 0
    ensures !exceeding ==> unitPrice > 0 && count == balance / unitPrice
  {
    count := amount;
    exceeding := true;
    while exceeding && count > 0
      invariant 0 <= count <= amount
      invariant exceeding <==> unitPrice * count > balance
      invariant forall k :: count < k <= amount ==> unitPrice * k > balance
      decreases count
    {
      count := count - 1;
      exceeding := unitPrice * count > balance;
    }
    if !exceeding {
      assert unitPrice * (count + 1) > balance;
      DivisionBetween(balance, unitPrice, count);
    } else {
      assert unitPrice * 0 == 0;
    }
  }

  lemma MulMonotone(p: nat, a: int, b: int)
    requires a <= b
    ensures p * a <= p * b
  {
    assert p * b - p * a == p * (b - a);
  }

  /** balance / p lies between the two multiples of p around balance. */
  lemma DivisionBounds(balance: int, p: nat)
    requires p > 0
    ensures p * (balance / p) <= balance < p * (balance / p + 1)
  {
    var d := balance / p;
    assert balance == p * d + balance % p;
    assert p * (d + 1) == p * d + p;
  }

  /** q is balance / p exactly when p * q <= balance < p * (q + 1). */
  lemma DivisionBetween(balance: int, p: nat, q: int)
    requires p * q <= balance < p * (q + 1)
    ensures p > 0 && q == balance / p
  {
    assert p > 0;
    var d := balance / p;
    DivisionBounds(balance, p);
    if d < q {
      MulMonotone(p, d + 1, q);
    } else if d > q {
      MulMonotone(p, q + 1, d);
    }
  }

  /** A successful purchase charges the price once for a limited item and per copy otherwise, and never overdraws. */
  lemma {:induction false} BuyCharges(account: Account, item: ShopItem, itemId: string, amount: int)
    requires Buy(account, item, itemId, amount).Success?
    ensures var (receipt, after) := Buy(account, item, itemId, amount).value;
      && itemId !in account.inventory
      && receipt.price == item.price * (if item.uses != 0 then 1 else amount)
      && receipt.price <= account.balance
      && after.balance == account.balance - receipt.price == receipt.balance
      && after.totalEarned == account.totalEarned
      && after.inventory.Keys == account.inventory.Keys + {itemId}
      && (forall k :: k in account.inventory ==> after.inventory[k] == account.inventory[k])
  {
  }

  /** What the inventory records: copies for a plain item, the full uses for a limited one, nothing for a unique one. */
  lemma {:induction false} BuyStocks(account: Account, item: ShopItem, itemId: string, amount: int)
    requires Buy(account, item, itemId, amount).Success?
    ensures var (receipt, after) := Buy(account, item, itemId, amount).value;
      && (item.uses == 0 && !item.unique ==> after.inventory[itemId] == Owned(Some(amount), None) && receipt.amount == amount)
      && (item.uses != 0 ==> after.inventory[itemId] == Owned(None, Some(item.uses)) && receipt.amount == item.uses)
      && (item.uses == 0 && item.unique ==> after.inventory[itemId] == Owned(None, None))
  {
  }

  /** Any item already owned is refused, whether or not it is unique or has uses to refill. */
  lemma {:induction false} OwnedItemsAreRefused(account: Account, item: ShopItem, itemId: string, amount: int)
    requires itemId in account.inventory
    ensures Buy(account, item, itemId, amount) == Failure(AlreadyOwned)
  {
  }

  /**
   * When the balance falls short of a plain order, the error names the most
   * copies it does pay for — possibly zero — and their price.
   */
  lemma {:induction false} ShortfallNamesMostAffordable(account: Account, item: ShopItem, itemId: string, amount: int)
    requires Buy(account, item, itemId, amount).Failure?
    requires Buy(account, item, itemId, amount).error.OnlyAfford?
    ensures var e := Buy(account, item, itemId, amount).error;
      && item.uses == 0 && 0 <= e.amount < amount
      && e.price == item.price * e.amount <= account.balance
      && item.price * (e.amount + 1) > account.balance
  {
    var k := account.balance / item.price;
    assert item.price * amount > account.balance;
    DivisionBounds(account.balance, item.price);
    if k >= amount {
      MulMonotone(item.price, amount, k);
    }
  }

  /** The stable descending sort keeps every entry exactly once ... */
  lemma {:induction false} InsertByEarnedPerm(e: (string, Account), s: seq<(string, Account)>)
    ensures multiset(InsertByEarned(e, s)) == multiset(s) + multiset{e}
  {
    if s != [] && s[0].1.totalEarned >= e.1.totalEarned {
      InsertByEarnedPerm(e, s[1..]);
      assert s == [s[0]] + s[1..];
    }
  }

  lemma {:induction false} InsertByEarnedSorted(e: (string, Account), s: seq<(string, Account)>)
    requires SortedByEarned(s)
    ensures SortedByEarned(InsertByEarned(e, s))
  {
    if s != [] && s[0].1.totalEarned >= e.1.totalEarned {
      InsertByEarnedSorted(e, s[1..]);
      InsertByEarnedPerm(e, s[1..]);
      var r := InsertByEarned(e, s[1..]);
      forall x | x in r
        ensures s[0].1.totalEarned >= x.1.totalEarned
      {
        assert x in multiset(r);
        if x != e {
          assert x in multiset(s[1..]);
        }
      }
    }
  }

  /** ... and orders them by totalEarned, highest first. */
  lemma {:induction false} SortByEarnedCorrect(entries: seq<(string, Account)>)
    ensures SortedByEarned(SortByEarned(entries))
    ensures multiset(SortByEarned(entries)) == multiset(entries)
  {
    if entries != [] {
      var init := entries[..|entries| - 1];
      SortByEarnedCorrect(init);
      InsertByEarnedSorted(entries[|entries| - 1], SortByEarned(init));
      InsertByEarnedPerm(entries[|entries| - 1], SortByEarned(init));
      assert entries == init + [entries[|entries| - 1]];
    }
  }

  /** Everyone left off the leaderboard earned no more than anyone on it. */
  lemma {:induction false} TopDominates(entries: seq<(string, Account)>, limit: nat)
    requires limit <= |entries|
    ensures var s := SortByEarned(entries);
      var top := Take(s, Some(limit));
      && |top| == limit
      && multiset(s) == multiset(entries)
      && (forall x, y :: x in top && y in s[limit..] ==> x.1.totalEarned >= y.1.totalEarned)
  {
    SortByEarnedCorrect(entries);
    var s := SortByEarned(entries);
    assert |s| == |multiset(s)| == |multiset(entries)| == |entries|;
    forall x, y | x in Take(s, Some(limit)) && y in s[limit..]
      ensures x.1.totalEarned >= y.1.totalEarned
    {
      var i :| 0 <= i < limit && s[i] == x;
      var j :| 0 <= j < |s| - limit && s[limit..][j] == y;
      assert s[limit + j] == y;
    }
  }

  /**
   * useItem reports -1 and leaves the inventory alone for an item not owned;
   * otherwise it spends one use, keeping the record while uses remain and
   * deleting it (reporting 0) when none do. No other user or item changes.
   */
  lemma {:induction false} UseItemCountsDown(accounts: map<string, Account>, userid: string, itemId: string,
                                             other: string, otherItem: string)
    ensures var (left, after) := UsedItem(accounts, userid, itemId);
      var before := AccountOf(accounts, userid).inventory;
      && userid in after
      && after[userid].balance == AccountOf(accounts, userid).balance
      && (left == -1 <==> itemId !in before)
      && (left == -1 ==> after[userid].inventory == before)
      && (left != -1 && left != 0 ==>
            itemId in after[userid].inventory && after[userid].inventory[itemId].uses == Some(left)
            && before[itemId].uses == Some(left + 1))
      && (left == 0 <==> itemId in before && itemId !in after[userid].inventory)
      && (other != userid ==> AccountOf(after, other) == AccountOf(accounts, other))
      && (otherItem != itemId && otherItem in before ==> after[userid].inventory[otherItem] == before[otherItem])
  {
  }
}
