/** Building one journal entry from amounts: the lines an operation posts, each on one side. */
module JournalEntries {
  import opened Sums

  datatype JournalLine<A> = JournalLine(account: A, debit: int, credit: int)

  function DebitOf<A>(): JournalLine<A> -> int {
    (l: JournalLine<A>) => l.debit
  }

  function CreditOf<A>(): JournalLine<A> -> int {
    (l: JournalLine<A>) => l.credit
  }

  function NetOn<A(==)>(a: A): JournalLine<A> -> int {
    (l: JournalLine<A>) => if l.account == a then l.debit - l.credit else 0
  }

  predicate OneSided<A>(l: JournalLine<A>) {
    (l.debit > 0 && l.credit == 0) || (l.credit > 0 && l.debit == 0)
  }

  /** A positive amount as one line on the named side; nothing otherwise. */
  function Side<A>(a: A, amount: int, debit: bool): (r: seq<JournalLine<A>>)
    ensures forall i :: 0 <= i < |r| ==> OneSided(r[i])
  {
    if amount <= 0 then [] else if debit then [JournalLine(a, amount, 0)] else [JournalLine(a, 0, amount)]
  }

  function OnSide<A>(f: JournalLine<A> -> int, a: A, amount: int, debit: bool): int {
    if amount <= 0 then 0 else if debit then f(JournalLine(a, amount, 0)) else f(JournalLine(a, 0, amount))
  }

  lemma {:induction false} SumSide<A>(entry: seq<JournalLine<A>>, a: A, amount: int, debit: bool,
      f: JournalLine<A> -> int)
    ensures Sum(entry + Side(a, amount, debit), f) == Sum(entry, f) + OnSide(f, a, amount, debit)
  {
    if amount <= 0 {
      assert entry + [] == entry;
    } else {
      SumAppend(entry, Side(a, amount, debit)[0], f);
    }
  }

  function Positive(amount: int): int {
    if amount > 0 then amount else 0
  }

  lemma {:induction false} SideTotals<A>(x: A, amount: int, debit: bool)
    ensures OnSide(DebitOf(), x, amount, debit) == if debit then Positive(amount) else 0
    ensures OnSide(CreditOf(), x, amount, debit) == if debit then 0 else Positive(amount)
  {
  }

  /** A mirrored line cancels the original on every account. */
  lemma {:induction false} MirrorCancels<A>(x: A, amount: int, debit: bool, a: A)
    ensures OnSide(NetOn(a), x, amount, debit) + OnSide(NetOn(a), x, amount, !debit) == 0
  {
  }

  predicate Balanced<A>(entry: seq<JournalLine<A>>) {
    Sum(entry, DebitOf()) == Sum(entry, CreditOf())
  }
}
