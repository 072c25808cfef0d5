/**
 * The "Recent Activity" list of the activity screen: two fixed card
 * transactions, with the synthetic relief credit put in front of them once
 * relief is active.
 */
module ActivityFeed {
  import opened Wrappers
  import opened FinancialState

  /**
   * The transaction a detail selection can name; `"bailout"` is the only one.
   * The component only records the selection: it renders no overlay for it.
   */
  datatype Detail = Bailout

  /** The word after the date on a row. */
  datatype Status = Payment | Posted

  /**
   * One row. The date is kept as the number of days before today that the
   * row is dated; `positive` selects the green "+" rendering; `onTap` is the
   * detail a tap on the row opens, if the row has a tap handler at all.
   */
  datatype Entry = Entry(
    title: string,
    daysAgo: nat,
    status: Status,
    amount: real,
    positive: bool,
    onTap: Option<Detail>)

  /** The synthetic credit that activation of relief adds. */
  function ReliefEntry(a: Account): (r: Entry)
    ensures r != PhoEntry && r != HuluEntry
    ensures r.positive && r.amount == a.reliefAmount && r.onTap == Some(Bailout)
  {
    Entry("Bailout Relief", 0, Payment, a.reliefAmount, true, Some(Bailout))
  }

  const PhoEntry := Entry("LD PHO CHICAGO IL", 0, Posted, 33.87, false, None)

  const HuluEntry := Entry("HULU", 0, Posted, 13.89, false, None)

  /** The rows of the list, top to bottom. */
  function Feed(a: Account, reliefActive: bool): (r: seq<Entry>)
    ensures |r| == if reliefActive then 3 else 2
    ensures (ReliefEntry(a) in r) == reliefActive
    ensures reliefActive ==> r[0] == ReliefEntry(a)
    ensures r[|r| - 2..] == [PhoEntry, HuluEntry]
    ensures forall i | 0 <= i < |r| :: r[i].onTap.Some? ==> i == 0 && r[i] == ReliefEntry(a)
  {
    var fixed := [PhoEntry, HuluEntry];
    assert ReliefEntry(a) !in fixed by {
      assert ReliefEntry(a).onTap != PhoEntry.onTap && ReliefEntry(a).onTap != HuluEntry.onTap;
    }
    if reliefActive then [ReliefEntry(a)] + fixed else fixed
  }

  /** Activating relief prepends exactly the relief entry and leaves the fixed rows in order. */
  lemma ReliefPrepends(a: Account)
    ensures Feed(a, true) == [ReliefEntry(a)] + Feed(a, false)
    ensures Feed(a, false) == [PhoEntry, HuluEntry]
  {
  }

  /** The relief row is a credit for the relief amount, shown with the positive sign. */
  lemma ReliefEntryIsCredit(a: Account)
    ensures forall e | e in Feed(a, true) && e.title == "Bailout Relief" ::
              e.positive && e.amount == a.reliefAmount && (a.reliefAmount > 0.0 ==> e.amount > 0.0)
  {
  }

  /** Only the relief row opens a detail, and the detail it opens is `Bailout`. */
  lemma OnlyReliefRowOpensDetail(a: Account, reliefActive: bool, i: nat)
    requires i < |Feed(a, reliefActive)|
    ensures Feed(a, reliefActive)[i].onTap.Some? <==> reliefActive && i == 0
    ensures Feed(a, reliefActive)[i].onTap.Some? ==> Feed(a, reliefActive)[i].onTap == Some(Bailout)
  {
  }
}
