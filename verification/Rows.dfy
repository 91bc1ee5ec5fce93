/** The rows of the wallet, transaction, transfer, ledger and outbox tables. */
module Rows {

  type Id = string

  datatype Option<+T> = None | Some(value: T)

  datatype Error =
    | MissingRow           // a property of a null row was read
    | DuplicateKey         // a primary key or unique index refused the insert
    | InsufficientBalance
  datatype Result<+T> = Ok(value: T) | Err(error: Error)

  datatype Status = Pending | Completed | Failed

  datatype Wallet = Wallet(userId: Id, currency: string, balance: int, tag: string)

  datatype Transaction = Transaction(
    userId: Id, amount: int, currency: string, key: string,
    status: Status, providerRef: Option<string>, failureReason: Option<string>)

  datatype Transfer = Transfer(
    fromUserId: Id, toUserId: Id, amount: int, currency: string, key: string, status: Status)

  datatype EntryKind = Deposit | TransferOut | TransferIn

  datatype LedgerEntry = LedgerEntry(
    walletId: Id, kind: EntryKind, amount: int, currency: string, balanceAfter: int, key: string)

  datatype Payload =
    | DepositPayload(userId: Id, walletId: Id, amount: int, currency: string)
    | TransferPayload(transferId: Id, fromUserId: Id, toUserId: Id, amount: int, currency: string)

  datatype OutboxEvent = OutboxEvent(name: string, aggregateId: Id, payload: Payload)

  const DEPOSIT_SUCCEEDED := "DepositSucceeded"
  const TRANSFER_COMPLETED := "TransferCompleted"
  const TRANSFER_SENT := "TransferSent"
  const TRANSFER_RECEIVED := "TransferReceived"

  /** The committed contents of the database. The ledger and the outbox are in commit order. */
  datatype Db = Db(
    wallets: map<Id, Wallet>,
    transactions: map<Id, Transaction>,
    transfers: map<Id, Transfer>,
    ledger: seq<LedgerEntry>,
    outbox: seq<OutboxEvent>)

  const EMPTY_DB := Db(map[], map[], map[], [], [])

  /** No element occurs twice. */
  predicate Distinct<T(==)>(s: seq<T>) {
    forall i, j :: 0 <= i < j < |s| ==> s[i] != s[j]
  }

  // The suffixed ledger keys of a transfer.

  function OutKey(key: string): string { key + ":out" }

  function InKey(key: string): string { key + ":in" }

  /** The suffixed keys of two transfers collide only if the transfers share their key. */
  lemma SuffixedKeysInjective(a: string, b: string)
    ensures OutKey(a) == OutKey(b) ==> a == b
    ensures InKey(a) == InKey(b) ==> a == b
    ensures OutKey(a) != InKey(b)
  {
    assert OutKey(a)[..|OutKey(a)| - 4] == a && OutKey(b)[..|OutKey(b)| - 4] == b;
    assert InKey(a)[..|InKey(a)| - 3] == a && InKey(b)[..|InKey(b)| - 3] == b;
    assert OutKey(a)[|OutKey(a)| - 1] == 't' && InKey(b)[|InKey(b)| - 1] == 'n';
  }

  function BalanceKey(userId: Id, currency: string): string {
    "wallet:balance:" + userId + ":" + currency
  }

  /** User ids are UUIDs, which contain no colon. */
  predicate ColonFree(s: string) {
    ':' !in s
  }

  /** Cache keys are injective for colon-free user ids, whatever the requested currency text. */
  lemma BalanceKeyInjective(u: Id, c: string, v: Id, d: string)
    requires ColonFree(u) && ColonFree(v)
    ensures BalanceKey(u, c) == BalanceKey(v, d) <==> u == v && c == d
  {
    if BalanceKey(u, c) == BalanceKey(v, d) {
      var p := "wallet:balance:";
      var x, y := BalanceKey(u, c), BalanceKey(v, d);
      assert x[|p|..] == u + ":" + c && y[|p|..] == v + ":" + d;
      ColonAfter(u, ":" + c);
      ColonAfter(v, ":" + d);
      assert u + ":" + c == u + (":" + c) && v + ":" + d == v + (":" + d);
      assert x[|p|..][..|u|] == u && y[|p|..][..|v|] == v;
      assert x[|p|..][|u| + 1..] == c && y[|p|..][|v| + 1..] == d;
    }
  }

  function FirstColon(s: string): nat {
    if s == [] || s[0] == ':' then 0 else 1 + FirstColon(s[1..])
  }

  lemma {:induction false} ColonAfter(u: string, rest: string)
    requires ColonFree(u) && rest != [] && rest[0] == ':'
    ensures FirstColon(u + rest) == |u|
  {
    if u == [] {
      assert u + rest == rest;
    } else {
      ColonAfter(u[1..], rest);
      assert (u + rest)[1..] == u[1..] + rest;
    }
  }

  /** With a colon in the user id two different users share one cache entry. */
  lemma BalanceKeyCollides()
    ensures BalanceKey("a", "b:EUR") == BalanceKey("a:b", "EUR")
  {
    calc {
      BalanceKey("a", "b:EUR");
      "wallet:balance:" + "a" + ":" + "b:EUR";
      "wallet:balance:" + "a:b" + ":" + "EUR";
    }
  }
}
