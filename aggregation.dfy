/**
 * Portfolio aggregation on the server: the `dashboard` route of
 * backend/app/main.py, `get_category_data` of backend/app/helpers.py, and the
 * `dashboard` routes of the legacy main.py and backend/main.py.
 *
 * Each folds the rows of the join Portfolios x Categories into a dictionary
 * from category name to a running total and a dictionary of sub-category
 * totals. Dictionaries are insertion-ordered association lists
 * (see Collections).
 */
module Aggregation {
  import opened Wrappers
  import opened Collections

  /** One row of the join: (balance, category_name, sub_category). */
  datatype Holding = Holding(balance: int, category: string, subCategory: string)

  /** `{"total_balance": ..., "sub_categories": {...}}` */
  datatype CategorySummary = CategorySummary(totalBalance: int, subCategories: seq<(string, int)>)

  type Summary = seq<(string, CategorySummary)>

  const EmptyCategory := CategorySummary(0, [])

  // ---------------------------------------------------------------- rows

  function Balances(rows: seq<Holding>): (b: seq<int>)
    ensures |b| == |rows| && forall i :: 0 <= i < |rows| ==> b[i] == rows[i].balance
  {
    seq(|rows|, i requires 0 <= i < |rows| => rows[i].balance)
  }

  lemma BalancesSnoc(rows: seq<Holding>, h: Holding)
    ensures Balances(rows + [h]) == Balances(rows) + [h.balance]
  {
  }

  /** Sum of the balances of the rows in category `k`. */
  function CategoryTotal(rows: seq<Holding>, k: string): int {
    if rows == [] then 0
    else CategoryTotal(rows[..|rows| - 1], k) + (if rows[|rows| - 1].category == k then rows[|rows| - 1].balance else 0)
  }

  /** Sum of the balances of the rows in category `k` and sub-category `sub`. */
  function SubTotal(rows: seq<Holding>, k: string, sub: string): int {
    if rows == [] then 0
    else
      var h := rows[|rows| - 1];
      SubTotal(rows[..|rows| - 1], k, sub) + (if h.category == k && h.subCategory == sub then h.balance else 0)
  }

  /** Some row has category `k`. */
  predicate HasCategory(rows: seq<Holding>, k: string) {
    rows != [] && (HasCategory(rows[..|rows| - 1], k) || rows[|rows| - 1].category == k)
  }

  /** Some row has category `k` and sub-category `sub`. */
  predicate HasPair(rows: seq<Holding>, k: string, sub: string) {
    rows != [] && (HasPair(rows[..|rows| - 1], k, sub) ||
                   (rows[|rows| - 1].category == k && rows[|rows| - 1].subCategory == sub))
  }

  lemma {:induction false} HasCategoryAt(rows: seq<Holding>, k: string)
    ensures HasCategory(rows, k) <==> exists i :: 0 <= i < |rows| && rows[i].category == k
  {
    if rows != [] {
      var init := rows[..|rows| - 1];
      HasCategoryAt(init, k);
      assert forall i :: 0 <= i < |init| ==> init[i] == rows[i];
    }
  }

  /** The rows the modern dashboard keeps: `if balance == 0: continue`. */
  function NonZero(rows: seq<Holding>): (r: seq<Holding>)
    ensures |r| <= |rows|
  {
    if rows == [] then []
    else NonZero(rows[..|rows| - 1]) + (if rows[|rows| - 1].balance != 0 then [rows[|rows| - 1]] else [])
  }

  /** The dashboard keeps exactly the rows whose balance is not 0. */
  lemma {:induction false} NonZeroKeeps(rows: seq<Holding>)
    ensures forall h :: h in NonZero(rows) <==> h in rows && h.balance != 0
  {
    if rows != [] {
      var init := rows[..|rows| - 1];
      NonZeroKeeps(init);
      assert rows == init + [rows[|rows| - 1]];
    }
  }

  /** Skipping zero rows keeps the order and repetitions of the rest: it distributes over concatenation. */
  lemma {:induction false} NonZeroAppend(a: seq<Holding>, b: seq<Holding>)
    ensures NonZero(a + b) == NonZero(a) + NonZero(b)
  {
    if b == [] {
      assert a + b == a;
    } else {
      assert (a + b)[..|a + b| - 1] == a + b[..|b| - 1];
      NonZeroAppend(a, b[..|b| - 1]);
    }
  }

  // ------------------------------------------------------------- folding

  /** The body of every aggregation loop: add one row's balance to its category and sub-category. */
  function Accumulate(c: CategorySummary, h: Holding): CategorySummary {
    CategorySummary(c.totalBalance + h.balance, AddTo(c.subCategories, h.subCategory, h.balance))
  }

  /** `if category not in summary: summary[category] = {0, {}}`, then `Accumulate`. */
  function AddHolding(s: Summary, h: Holding): Summary {
    if s == [] then [(h.category, Accumulate(EmptyCategory, h))]
    else if s[0].0 == h.category then [(h.category, Accumulate(s[0].1, h))] + s[1..]
    else [s[0]] + AddHolding(s[1..], h)
  }

  /** An existing category keeps its position and a new one is appended. */
  lemma {:induction false} AddHoldingKeys(s: Summary, h: Holding)
    ensures Keys(AddHolding(s, h)) == if h.category in Keys(s) then Keys(s) else Keys(s) + [h.category]
  {
    if s != [] {
      assert Keys(s) == [s[0].0] + Keys(s[1..]);
      if s[0].0 == h.category {
        assert Keys(AddHolding(s, h)) == [h.category] + Keys(s[1..]);
      } else {
        AddHoldingKeys(s[1..], h);
        assert Keys(AddHolding(s, h)) == [s[0].0] + Keys(AddHolding(s[1..], h));
      }
    }
  }

  /** The dictionary the loop builds from `rows`, one row at a time. */
  function Fold(rows: seq<Holding>): Summary {
    if rows == [] then [] else AddHolding(Fold(rows[..|rows| - 1]), rows[|rows| - 1])
  }

  /** `SubsOf(s, k)` is `s[k]["sub_categories"]`, or `{}` when `k` is absent. */
  function SubsOf(s: Summary, k: string): seq<(string, int)> {
    match Get(s, k)
    case Some(c) => c.subCategories
    case None => []
  }

  /** Sum of the category totals of a summary. */
  function GrandTotal(s: Summary): int {
    if s == [] then 0 else s[0].1.totalBalance + GrandTotal(s[1..])
  }

  /** Every category's total is the sum of its sub-category totals. */
  predicate TotalsAgree(s: Summary) {
    s == [] || (s[0].1.totalBalance == Sum(Values(s[0].1.subCategories)) && TotalsAgree(s[1..]))
  }

  lemma {:induction false} AddHoldingGet(s: Summary, h: Holding, k: string)
    ensures Get(AddHolding(s, h), k) ==
      if k == h.category then Some(Accumulate(Get(s, k).GetOr(EmptyCategory), h)) else Get(s, k)
  {
    if s == [] {
    } else if s[0].0 == h.category {
      assert AddHolding(s, h)[1..] == s[1..];
    } else {
      AddHoldingGet(s[1..], h, k);
      assert AddHolding(s, h)[1..] == AddHolding(s[1..], h);
    }
  }

  lemma {:induction false} AddHoldingTotals(s: Summary, h: Holding)
    requires TotalsAgree(s)
    ensures TotalsAgree(AddHolding(s, h))
    ensures GrandTotal(AddHolding(s, h)) == GrandTotal(s) + h.balance
  {
    var r := AddHolding(s, h);
    if s == [] {
      AddToSum([], h.subCategory, h.balance);
      assert r[1..] == [];
    } else if s[0].0 == h.category {
      AddToSum(s[0].1.subCategories, h.subCategory, h.balance);
      assert r[1..] == s[1..];
    } else {
      AddHoldingTotals(s[1..], h);
      assert r[1..] == AddHolding(s[1..], h);
    }
  }

  lemma AddHoldingDistinct(s: Summary, h: Holding)
    requires DistinctKeys(s)
    ensures DistinctKeys(AddHolding(s, h))
  {
    var r := AddHolding(s, h);
    AddHoldingKeys(s, h);
    forall i, j | 0 <= i < j < |r| ensures r[i].0 != r[j].0 {
      assert Keys(r)[i] == r[i].0 && Keys(r)[j] == r[j].0;
      if h.category !in Keys(s) {
        assert Keys(s)[i] == s[i].0;
        if j < |s| {
          assert Keys(s)[j] == s[j].0;
        }
      } else {
        assert Keys(s)[i] == s[i].0 && Keys(s)[j] == s[j].0;
      }
    }
  }

  lemma {:induction false} FoldShape(rows: seq<Holding>)
    ensures DistinctKeys(Fold(rows)) && TotalsAgree(Fold(rows))
    ensures GrandTotal(Fold(rows)) == Sum(Balances(rows))
  {
    if rows != [] {
      var init, h := rows[..|rows| - 1], rows[|rows| - 1];
      FoldShape(init);
      AddHoldingDistinct(Fold(init), h);
      AddHoldingTotals(Fold(init), h);
      assert rows == init + [h];
      BalancesSnoc(init, h);
      SumAppend(Balances(init), [h.balance]);
    }
  }

  lemma {:induction false} AbsentCategory(rows: seq<Holding>, k: string, sub: string)
    requires !HasCategory(rows, k)
    ensures CategoryTotal(rows, k) == 0 && SubTotal(rows, k, sub) == 0 && !HasPair(rows, k, sub)
  {
    if rows != [] {
      AbsentCategory(rows[..|rows| - 1], k, sub);
    }
  }

  lemma {:induction false} AbsentPair(rows: seq<Holding>, k: string, sub: string)
    requires !HasPair(rows, k, sub)
    ensures SubTotal(rows, k, sub) == 0
  {
    if rows != [] {
      AbsentPair(rows[..|rows| - 1], k, sub);
    }
  }

  /**
   * What the fold records under category `k`: `k` is present exactly when
   * some row has that category, and its total is the sum of those rows.
   */
  lemma {:induction false} FoldCategory(rows: seq<Holding>, k: string)
    ensures Get(Fold(rows), k).Some? <==> HasCategory(rows, k)
    ensures Get(Fold(rows), k).Some? ==> Get(Fold(rows), k).value.totalBalance == CategoryTotal(rows, k)
  {
    if rows != [] {
      var init, h := rows[..|rows| - 1], rows[|rows| - 1];
      FoldCategory(init, k);
      AddHoldingGet(Fold(init), h, k);
      if k == h.category && !HasCategory(init, k) {
        AbsentCategory(init, k, "");
      }
    }
  }

  /**
   * What the fold records under category `k` and sub-category `sub`:
   * present exactly when some row has that pair, with the sum of those rows,
   * so duplicate rows are summed, never overwritten.
   */
  lemma {:induction false} FoldSub(rows: seq<Holding>, k: string, sub: string)
    ensures Get(SubsOf(Fold(rows), k), sub) == if HasPair(rows, k, sub) then Some(SubTotal(rows, k, sub)) else None
  {
    if rows != [] {
      var init, h := rows[..|rows| - 1], rows[|rows| - 1];
      FoldSub(init, k, sub);
      AddHoldingGet(Fold(init), h, k);
      var c := Get(Fold(init), k).GetOr(EmptyCategory);
      assert c.subCategories == SubsOf(Fold(init), k);
      if k == h.category {
        assert SubsOf(Fold(rows), k) == Accumulate(c, h).subCategories;
        AccumulateSub(c, h, sub);
        if !HasPair(init, k, sub) {
          AbsentPair(init, k, sub);
        }
      }
    }
  }

  lemma AccumulateSub(c: CategorySummary, h: Holding, sub: string)
    ensures Get(Accumulate(c, h).subCategories, sub) ==
      if sub == h.subCategory then Some(Get(c.subCategories, sub).GetOr(0) + h.balance) else Get(c.subCategories, sub)
  {
    AddToGet(c.subCategories, h.subCategory, h.balance, sub);
  }

  // ---------------------------------------------------- zero rows, filter

  /** Skipping zero rows changes no category sum, no sub-category sum and not the overall sum. */
  lemma NonZeroSums(rows: seq<Holding>, k: string, sub: string)
    ensures CategoryTotal(NonZero(rows), k) == CategoryTotal(rows, k)
    ensures SubTotal(NonZero(rows), k, sub) == SubTotal(rows, k, sub)
    ensures Sum(Balances(NonZero(rows))) == Sum(Balances(rows))
  {
    NonZeroCategoryTotal(rows, k);
    NonZeroSubTotal(rows, k, sub);
    NonZeroBalances(rows);
  }

  /** The last row decides whether `NonZero` keeps it. */
  lemma NonZeroSnoc(rows: seq<Holding>)
    requires rows != []
    ensures var init, h := rows[..|rows| - 1], rows[|rows| - 1];
      NonZero(rows) == if h.balance != 0 then NonZero(init) + [h] else NonZero(init)
  {
  }

  lemma {:induction false} NonZeroCategoryTotal(rows: seq<Holding>, k: string)
    ensures CategoryTotal(NonZero(rows), k) == CategoryTotal(rows, k)
  {
    if rows != [] {
      var init, h := rows[..|rows| - 1], rows[|rows| - 1];
      NonZeroCategoryTotal(init, k);
      NonZeroSnoc(rows);
      if h.balance != 0 {
        var nz := NonZero(init);
        assert (nz + [h])[..|nz + [h]| - 1] == nz;
      }
    }
  }

  lemma {:induction false} NonZeroSubTotal(rows: seq<Holding>, k: string, sub: string)
    ensures SubTotal(NonZero(rows), k, sub) == SubTotal(rows, k, sub)
  {
    if rows != [] {
      var init, h := rows[..|rows| - 1], rows[|rows| - 1];
      NonZeroSubTotal(init, k, sub);
      NonZeroSnoc(rows);
      if h.balance != 0 {
        var nz := NonZero(init);
        assert (nz + [h])[..|nz + [h]| - 1] == nz;
      }
    }
  }

  lemma {:induction false} NonZeroBalances(rows: seq<Holding>)
    ensures Sum(Balances(NonZero(rows))) == Sum(Balances(rows))
  {
    if rows != [] {
      var init, h := rows[..|rows| - 1], rows[|rows| - 1];
      NonZeroBalances(init);
      NonZeroSnoc(rows);
      assert rows == init + [h];
      BalancesSnoc(init, h);
      SumAppend(Balances(init), [h.balance]);
      if h.balance != 0 {
        var nz := NonZero(init);
        BalancesSnoc(nz, h);
        SumAppend(Balances(nz), [h.balance]);
      }
    }
  }

  /** The dictionary comprehension keeping the categories whose total is positive. */
  function Positive(s: Summary): (r: Summary)
    ensures |r| <= |s|
    ensures forall i :: 0 <= i < |r| ==> r[i].1.totalBalance > 0
  {
    if s == [] then []
    else (if s[0].1.totalBalance > 0 then [s[0]] else []) + Positive(s[1..])
  }

  lemma {:induction false} PositiveGet(s: Summary, k: string)
    requires DistinctKeys(s)
    ensures Get(Positive(s), k) == if Get(s, k).Some? && Get(s, k).value.totalBalance > 0 then Get(s, k) else None
  {
    if s != [] {
      var t := s[1..];
      DistinctTail(s);
      PositiveGet(t, k);
      GetFound(t, k);
      if s[0].1.totalBalance > 0 {
        assert ([s[0]] + Positive(t))[1..] == Positive(t);
      } else {
        assert Positive(s) == Positive(t);
      }
    }
  }

  lemma {:induction false} PositiveShape(s: Summary)
    requires DistinctKeys(s)
    ensures DistinctKeys(Positive(s))
    ensures TotalsAgree(s) ==> TotalsAgree(Positive(s))
  {
    if s != [] {
      var t := s[1..];
      DistinctTail(s);
      PositiveShape(t);
      if s[0].1.totalBalance > 0 {
        PositiveGet(t, s[0].0);
        GetFound(t, s[0].0);
        GetFound(Positive(t), s[0].0);
        DistinctCons(s[0], Positive(t));
        assert ([s[0]] + Positive(t))[1..] == Positive(t);
      } else {
        assert Positive(s) == Positive(t);
      }
    }
  }

  /** Dropping categories whose total is zero leaves the grand total unchanged. */
  lemma {:induction false} PositiveGrandTotal(s: Summary)
    requires forall i :: 0 <= i < |s| ==> s[i].1.totalBalance >= 0
    ensures GrandTotal(Positive(s)) == GrandTotal(s)
  {
    if s != [] {
      var t := s[1..];
      forall i | 0 <= i < |t| ensures t[i].1.totalBalance >= 0 {
        assert t[i] == s[i + 1];
      }
      PositiveGrandTotal(t);
      assert GrandTotal(s) == s[0].1.totalBalance + GrandTotal(t);
      if s[0].1.totalBalance > 0 {
        assert ([s[0]] + Positive(t))[1..] == Positive(t);
      } else {
        assert s[0].1.totalBalance == 0;
        assert Positive(s) == Positive(t);
      }
    }
  }

  // ------------------------------------------------------------ the routes

  /**
   * The aggregation loop of `dashboard` (backend/app/main.py:183-208):
   * zero balances are skipped, the rest are summed into `total_estate` and
   * the summary, and only categories with a positive total are returned.
   */
  method Dashboard(rows: seq<Holding>) returns (summary: Summary, totalEstate: int)
    ensures summary == Positive(Fold(NonZero(rows)))
    ensures totalEstate == Sum(Balances(rows))
    ensures DistinctKeys(summary) && TotalsAgree(summary)
    ensures forall i :: 0 <= i < |summary| ==> summary[i].1.totalBalance > 0
    ensures forall k :: Get(summary, k).Some? <==> HasCategory(NonZero(rows), k) && CategoryTotal(rows, k) > 0
    ensures forall k :: Get(summary, k).Some? ==> Get(summary, k).value.totalBalance == CategoryTotal(rows, k)
    ensures forall k, sub :: Get(summary, k).Some? ==>
      (Get(SubsOf(summary, k), sub) == if HasPair(NonZero(rows), k, sub) then Some(SubTotal(rows, k, sub)) else None)
  {
    var acc: Summary := [];
    totalEstate := 0;
    var i := 0;
    while i < |rows|
      invariant 0 <= i <= |rows|
      invariant acc == Fold(NonZero(rows[..i]))
      invariant totalEstate == Sum(Balances(NonZero(rows[..i])))
    {
      DashboardStep(rows, i);
      var h := rows[i];
      if h.balance != 0 {
        totalEstate := totalEstate + h.balance;
        acc := AddHolding(acc, h);
      }
      i := i + 1;
    }
    assert rows[..i] == rows;
    summary := Positive(acc);
    NonZeroBalances(rows);
    DashboardShape(rows, summary);
  }

  /** One iteration of the dashboard loop: a non-zero row is added to the summary and to `total_estate`. */
  lemma DashboardStep(rows: seq<Holding>, i: nat)
    requires i < |rows|
    ensures Fold(NonZero(rows[..i + 1])) ==
      if rows[i].balance != 0 then AddHolding(Fold(NonZero(rows[..i])), rows[i]) else Fold(NonZero(rows[..i]))
    ensures Sum(Balances(NonZero(rows[..i + 1]))) ==
      Sum(Balances(NonZero(rows[..i]))) + if rows[i].balance != 0 then rows[i].balance else 0
  {
    var h, r := rows[i], rows[..i + 1];
    var before := NonZero(rows[..i]);
    assert r[..|r| - 1] == rows[..i] && r[|r| - 1] == h;
    NonZeroSnoc(r);
    if h.balance != 0 {
      var nz := before + [h];
      assert nz[..|nz| - 1] == before && nz[|nz| - 1] == h;
      assert Fold(nz) == AddHolding(Fold(before), h);
      BalancesSnoc(before, h);
      SumAppend(Balances(before), [h.balance]);
    }
  }

  /** What the returned summary holds. */
  lemma DashboardShape(rows: seq<Holding>, summary: Summary)
    requires summary == Positive(Fold(NonZero(rows)))
    ensures DistinctKeys(summary) && TotalsAgree(summary)
    ensures forall i :: 0 <= i < |summary| ==> summary[i].1.totalBalance > 0
    ensures forall k :: Get(summary, k).Some? <==> HasCategory(NonZero(rows), k) && CategoryTotal(rows, k) > 0
    ensures forall k :: Get(summary, k).Some? ==> Get(summary, k).value.totalBalance == CategoryTotal(rows, k)
    ensures forall k, sub :: Get(summary, k).Some? ==>
      (Get(SubsOf(summary, k), sub) == if HasPair(NonZero(rows), k, sub) then Some(SubTotal(rows, k, sub)) else None)
  {
    FoldShape(NonZero(rows));
    PositiveShape(Fold(NonZero(rows)));
    DashboardCategories(rows, summary);
    DashboardSubCategories(rows, summary);
  }

  lemma DashboardCategories(rows: seq<Holding>, summary: Summary)
    requires summary == Positive(Fold(NonZero(rows)))
    ensures forall k :: Get(summary, k).Some? <==> HasCategory(NonZero(rows), k) && CategoryTotal(rows, k) > 0
    ensures forall k :: Get(summary, k).Some? ==> Get(summary, k).value.totalBalance == CategoryTotal(rows, k)
  {
    var acc := Fold(NonZero(rows));
    FoldShape(NonZero(rows));
    forall k | true
      ensures Get(summary, k).Some? <==> HasCategory(NonZero(rows), k) && CategoryTotal(rows, k) > 0
      ensures Get(summary, k).Some? ==> Get(summary, k).value.totalBalance == CategoryTotal(rows, k)
    {
      FoldCategory(NonZero(rows), k);
      NonZeroCategoryTotal(rows, k);
      PositiveGet(acc, k);
    }
  }

  lemma DashboardSubCategories(rows: seq<Holding>, summary: Summary)
    requires summary == Positive(Fold(NonZero(rows)))
    ensures forall k, sub :: Get(summary, k).Some? ==>
      (Get(SubsOf(summary, k), sub) == if HasPair(NonZero(rows), k, sub) then Some(SubTotal(rows, k, sub)) else None)
  {
    var acc := Fold(NonZero(rows));
    FoldShape(NonZero(rows));
    forall k, sub | Get(summary, k).Some?
      ensures Get(SubsOf(summary, k), sub) == if HasPair(NonZero(rows), k, sub) then Some(SubTotal(rows, k, sub)) else None
    {
      FoldSub(NonZero(rows), k, sub);
      NonZeroSubTotal(rows, k, sub);
      PositiveGet(acc, k);
    }
  }

  /**
   * `total_estate` counts every balance, but categories whose total is not
   * positive are not returned: the returned totals add up to `total_estate`
   * when no category total is negative.
   */
  lemma EstateMatchesShownTotals(rows: seq<Holding>)
    requires forall k :: CategoryTotal(rows, k) >= 0
    ensures GrandTotal(Positive(Fold(NonZero(rows)))) == Sum(Balances(rows))
  {
    var s := Fold(NonZero(rows));
    FoldShape(NonZero(rows));
    NonZeroSums(rows, "", "");
    forall i | 0 <= i < |s| ensures s[i].1.totalBalance >= 0 {
      GetAt(s, i);
      FoldCategory(NonZero(rows), s[i].0);
      NonZeroSums(rows, s[i].0, "");
    }
    PositiveGrandTotal(s);
  }

  /** Dropping the categories whose total is not positive never lowers the grand total, and raises it when one is negative. */
  lemma {:induction false} PositiveRaisesGrandTotal(s: Summary)
    ensures GrandTotal(Positive(s)) >= GrandTotal(s)
    ensures (exists i :: 0 <= i < |s| && s[i].1.totalBalance < 0) ==> GrandTotal(Positive(s)) > GrandTotal(s)
  {
    if s != [] {
      var t := s[1..];
      PositiveRaisesGrandTotal(t);
      assert GrandTotal(s) == s[0].1.totalBalance + GrandTotal(t);
      if s[0].1.totalBalance > 0 {
        assert GrandTotal([s[0]] + Positive(t)) == s[0].1.totalBalance + GrandTotal(Positive(t)) by {
          assert ([s[0]] + Positive(t))[1..] == Positive(t);
        }
      } else {
        assert Positive(s) == Positive(t);
      }
      if exists i :: 0 <= i < |s| && s[i].1.totalBalance < 0 {
        var i :| 0 <= i < |s| && s[i].1.totalBalance < 0;
        if i > 0 {
          assert t[i - 1] == s[i];
        }
      }
    }
  }

  /**
   * The partner of `EstateMatchesShownTotals`: the returned totals never add
   * up to less than `total_estate`, and they add up to exactly
   * `total_estate` only when no category total is negative.
   */
  lemma ShownTotalsVersusEstate(rows: seq<Holding>)
    ensures GrandTotal(Positive(Fold(NonZero(rows)))) >= Sum(Balances(rows))
    ensures GrandTotal(Positive(Fold(NonZero(rows)))) == Sum(Balances(rows)) <==> forall k :: CategoryTotal(rows, k) >= 0
  {
    var s := Fold(NonZero(rows));
    FoldShape(NonZero(rows));
    NonZeroBalances(rows);
    PositiveRaisesGrandTotal(s);
    if forall k :: CategoryTotal(rows, k) >= 0 {
      EstateMatchesShownTotals(rows);
    } else {
      var k :| CategoryTotal(rows, k) < 0;
      NonZeroCategoryTotal(rows, k);
      if !HasCategory(NonZero(rows), k) {
        AbsentCategory(NonZero(rows), k, "");
      }
      FoldCategory(NonZero(rows), k);
      GetFound(s, k);
      var m :| 0 <= m < |Keys(s)| && Keys(s)[m] == k;
      GetAt(s, m);
      assert s[m].1.totalBalance < 0;
    }
  }

  /** An example: with a negative holding (which `delete_entry` allows) the two differ. */
  lemma EstateCanExceedShownTotals()
    ensures var rows := [Holding(-5, "Actions", "Actions"), Holding(10, "Épargne", "PEA")];
      GrandTotal(Positive(Fold(NonZero(rows)))) == 10 && Sum(Balances(rows)) == 5
  {
    var rows := [Holding(-5, "Actions", "Actions"), Holding(10, "Épargne", "PEA")];
    ExampleFold();
    var cb := CategorySummary(10, [("PEA", 10)]);
    ExamplePositive();
    assert GrandTotal([("Épargne", cb)]) == 10 + GrandTotal([]);
    ExampleBalances();
  }

  lemma ExampleFold()
    ensures var rows := [Holding(-5, "Actions", "Actions"), Holding(10, "Épargne", "PEA")];
      Fold(NonZero(rows)) == [("Actions", CategorySummary(-5, [("Actions", -5)])), ("Épargne", CategorySummary(10, [("PEA", 10)]))]
  {
    var a, b := Holding(-5, "Actions", "Actions"), Holding(10, "Épargne", "PEA");
    ExampleNonZero();
    ExampleFirstRow();
    assert [a, b][..1] == [a];
    ExampleSecondRow();
  }

  lemma ExampleNonZero()
    ensures var rows := [Holding(-5, "Actions", "Actions"), Holding(10, "Épargne", "PEA")];
      NonZero(rows) == rows
  {
    var a, b := Holding(-5, "Actions", "Actions"), Holding(10, "Épargne", "PEA");
    assert [a, b][..1] == [a] && [a][..0] == [];
    assert NonZero([a]) == [a];
  }

  lemma ExampleFirstRow()
    ensures Fold([Holding(-5, "Actions", "Actions")]) == [("Actions", CategorySummary(-5, [("Actions", -5)]))]
  {
    var a := Holding(-5, "Actions", "Actions");
    assert [a][..0] == [];
    assert AddTo([], "Actions", -5) == [("Actions", -5)];
  }

  lemma ExampleSecondRow()
    ensures AddHolding([("Actions", CategorySummary(-5, [("Actions", -5)]))], Holding(10, "Épargne", "PEA"))
      == [("Actions", CategorySummary(-5, [("Actions", -5)])), ("Épargne", CategorySummary(10, [("PEA", 10)]))]
  {
    var ca := CategorySummary(-5, [("Actions", -5)]);
    var b := Holding(10, "Épargne", "PEA");
    assert "Actions" != "Épargne" by { assert "Actions"[0] != "Épargne"[0]; }
    assert AddTo([], "PEA", 10) == [("PEA", 10)];
    assert [("Actions", ca)][1..] == [];
  }

  lemma ExamplePositive()
    ensures Positive([("Actions", CategorySummary(-5, [("Actions", -5)])), ("Épargne", CategorySummary(10, [("PEA", 10)]))])
      == [("Épargne", CategorySummary(10, [("PEA", 10)]))]
  {
    var cb := CategorySummary(10, [("PEA", 10)]);
    assert Positive([("Épargne", cb)]) == [("Épargne", cb)];
  }

  lemma ExampleBalances()
    ensures Sum(Balances([Holding(-5, "Actions", "Actions"), Holding(10, "Épargne", "PEA")])) == 5
  {
    assert Balances([Holding(-5, "Actions", "Actions"), Holding(10, "Épargne", "PEA")]) == [-5, 10];
    assert [-5, 10][1..] == [10] && [10][1..] == [];
    assert Sum([-5, 10]) == -5 + Sum([10]) == 5;
  }

  /** The user's rows of `category_name` with a positive balance (the query of backend/app/helpers.py:93-105). */
  function CategoryQuery(rows: seq<Holding>, name: string): (q: seq<Holding>)
    ensures forall i :: 0 <= i < |q| ==> q[i].category == name && q[i].balance > 0
  {
    if rows == [] then []
    else
      var h := rows[|rows| - 1];
      CategoryQuery(rows[..|rows| - 1], name) + (if h.category == name && h.balance > 0 then [h] else [])
  }

  /** The query keeps exactly the rows of category `name` whose balance is positive. */
  lemma {:induction false} CategoryQueryKeeps(rows: seq<Holding>, name: string)
    ensures forall h :: h in CategoryQuery(rows, name) <==> h in rows && h.category == name && h.balance > 0
  {
    if rows != [] {
      var init := rows[..|rows| - 1];
      CategoryQueryKeeps(init, name);
      assert rows == init + [rows[|rows| - 1]];
    }
  }

  /** The query keeps the order and repetitions of the user's rows: it distributes over concatenation. */
  lemma {:induction false} CategoryQueryAppend(a: seq<Holding>, b: seq<Holding>, name: string)
    ensures CategoryQuery(a + b, name) == CategoryQuery(a, name) + CategoryQuery(b, name)
  {
    if b == [] {
      assert a + b == a;
    } else {
      assert (a + b)[..|a + b| - 1] == a + b[..|b| - 1];
      CategoryQueryAppend(a, b[..|b| - 1], name);
    }
  }

  /** Sum of the positive balances of the rows in category `k` and sub-category `sub`. */
  function PositiveSubTotal(rows: seq<Holding>, k: string, sub: string): int {
    if rows == [] then 0
    else
      var h := rows[|rows| - 1];
      PositiveSubTotal(rows[..|rows| - 1], k, sub) + (if h.category == k && h.subCategory == sub && h.balance > 0 then h.balance else 0)
  }

  /** Some row has category `k`, sub-category `sub` and a positive balance. */
  predicate HasPositivePair(rows: seq<Holding>, k: string, sub: string) {
    rows != [] && (HasPositivePair(rows[..|rows| - 1], k, sub) ||
                   (rows[|rows| - 1].category == k && rows[|rows| - 1].subCategory == sub && rows[|rows| - 1].balance > 0))
  }

  lemma {:induction false} HasPositivePairAt(rows: seq<Holding>, k: string, sub: string)
    ensures HasPositivePair(rows, k, sub) <==>
      exists i :: 0 <= i < |rows| && rows[i].category == k && rows[i].subCategory == sub && rows[i].balance > 0
  {
    if rows != [] {
      var init := rows[..|rows| - 1];
      HasPositivePairAt(init, k, sub);
      assert forall i :: 0 <= i < |init| ==> init[i] == rows[i];
    }
  }

  /** The query's pairs and pair sums, read off the user's rows. */
  lemma QueryPair(rows: seq<Holding>, name: string, sub: string)
    ensures HasPair(CategoryQuery(rows, name), name, sub) <==> HasPositivePair(rows, name, sub)
    ensures SubTotal(CategoryQuery(rows, name), name, sub) == PositiveSubTotal(rows, name, sub)
  {
    QueryHasPair(rows, name, sub);
    QuerySubTotal(rows, name, sub);
  }

  lemma {:induction false} QueryHasPair(rows: seq<Holding>, name: string, sub: string)
    ensures HasPair(CategoryQuery(rows, name), name, sub) <==> HasPositivePair(rows, name, sub)
  {
    if rows != [] {
      var init, h := rows[..|rows| - 1], rows[|rows| - 1];
      QueryHasPair(init, name, sub);
      var qi := CategoryQuery(init, name);
      assert HasPositivePair(rows, name, sub) <==>
        HasPositivePair(init, name, sub) || (h.category == name && h.subCategory == sub && h.balance > 0);
      if h.category == name && h.balance > 0 {
        var q := qi + [h];
        assert CategoryQuery(rows, name) == q;
        assert q[..|q| - 1] == qi;
        assert HasPair(q, name, sub) <==> HasPair(qi, name, sub) || h.subCategory == sub;
      } else {
        assert CategoryQuery(rows, name) == qi + [];
        assert qi + [] == qi;
      }
    }
  }

  lemma {:induction false} QuerySubTotal(rows: seq<Holding>, name: string, sub: string)
    ensures SubTotal(CategoryQuery(rows, name), name, sub) == PositiveSubTotal(rows, name, sub)
  {
    if rows != [] {
      var init, h := rows[..|rows| - 1], rows[|rows| - 1];
      QuerySubTotal(init, name, sub);
      var qi := CategoryQuery(init, name);
      assert PositiveSubTotal(rows, name, sub) ==
        PositiveSubTotal(init, name, sub) + (if h.category == name && h.subCategory == sub && h.balance > 0 then h.balance else 0);
      if h.category == name && h.balance > 0 {
        var q := qi + [h];
        assert CategoryQuery(rows, name) == q;
        assert q[..|q| - 1] == qi;
        assert SubTotal(q, name, sub) == SubTotal(qi, name, sub) + (if h.subCategory == sub then h.balance else 0);
      } else {
        assert CategoryQuery(rows, name) == qi + [];
        assert qi + [] == qi;
      }
    }
  }

  /** Sub-category totals of rows, folded with the additive update. */
  function FoldSubs(q: seq<Holding>): seq<(string, int)> {
    if q == [] then [] else AddTo(FoldSubs(q[..|q| - 1]), q[|q| - 1].subCategory, q[|q| - 1].balance)
  }

  lemma {:induction false} FoldSubsGet(q: seq<Holding>, name: string, sub: string)
    requires forall i :: 0 <= i < |q| ==> q[i].category == name
    ensures Get(FoldSubs(q), sub) == if HasPair(q, name, sub) then Some(SubTotal(q, name, sub)) else None
  {
    if q != [] {
      var init, h := q[..|q| - 1], q[|q| - 1];
      assert forall i :: 0 <= i < |init| ==> init[i] == q[i];
      FoldSubsGet(init, name, sub);
      AddToGet(FoldSubs(init), h.subCategory, h.balance, sub);
      if !HasPair(init, name, sub) {
        AbsentPair(init, name, sub);
      }
    }
  }

  /** Positive values only: every sub-category total is a sum of positive balances. */
  ghost predicate AllPositive(d: seq<(string, int)>) {
    forall i :: 0 <= i < |d| ==> d[i].1 > 0
  }

  lemma AddToPositive(d: seq<(string, int)>, k: string, x: int)
    requires DistinctKeys(d) && AllPositive(d) && x > 0
    ensures AllPositive(AddTo(d, k, x))
  {
    var r := AddTo(d, k, x);
    AddToDistinct(d, k, x);
    forall i | 0 <= i < |r| ensures r[i].1 > 0 {
      GetAt(r, i);
      AddToGet(d, k, x, r[i].0);
      var j := r[i].0;
      if Get(d, j).Some? {
        GetFound(d, j);
        var m :| 0 <= m < |d| && Keys(d)[m] == j;
        GetAt(d, m);
      }
    }
  }

  lemma {:induction false} FoldSubsShape(q: seq<Holding>)
    requires forall i :: 0 <= i < |q| ==> q[i].balance > 0
    ensures Sum(Values(FoldSubs(q))) == Sum(Balances(q))
    ensures DistinctKeys(FoldSubs(q)) && AllPositive(FoldSubs(q))
  {
    if q != [] {
      var init, h := q[..|q| - 1], q[|q| - 1];
      assert forall i :: 0 <= i < |init| ==> init[i] == q[i];
      FoldSubsShape(init);
      var d := FoldSubs(init);
      AddToSum(d, h.subCategory, h.balance);
      AddToDistinct(d, h.subCategory, h.balance);
      AddToPositive(d, h.subCategory, h.balance);
      assert q == init + [h];
      BalancesSnoc(init, h);
      SumAppend(Balances(init), [h.balance]);
    }
  }

  /**
   * `get_category_data` (backend/app/helpers.py:88-117): totals per
   * sub-category of the rows of one category that have a positive balance.
   */
  method CategoryData(rows: seq<Holding>, name: string) returns (summary: seq<(string, int)>, total: int)
    ensures summary == FoldSubs(CategoryQuery(rows, name))
    ensures total == Sum(Values(summary)) && total == Sum(Balances(CategoryQuery(rows, name)))
    ensures DistinctKeys(summary) && AllPositive(summary)
    ensures forall sub :: Get(summary, sub) == (if HasPair(CategoryQuery(rows, name), name, sub) then Some(SubTotal(CategoryQuery(rows, name), name, sub)) else None)
    ensures forall sub :: Get(summary, sub) == (if HasPositivePair(rows, name, sub) then Some(PositiveSubTotal(rows, name, sub)) else None)
  {
    var data := CategoryQuery(rows, name);
    total := 0;
    summary := [];
    var i := 0;
    while i < |data|
      invariant 0 <= i <= |data|
      invariant summary == FoldSubs(data[..i])
      invariant total == Sum(Balances(data[..i]))
    {
      CategoryDataStep(data, i);
      total := total + data[i].balance;
      summary := AddTo(summary, data[i].subCategory, data[i].balance);
      i := i + 1;
    }
    assert data[..i] == data;
    CategoryDataShape(rows, name);
  }

  /** One iteration of the `get_category_data` loop. */
  lemma CategoryDataStep(data: seq<Holding>, i: nat)
    requires i < |data|
    ensures FoldSubs(data[..i + 1]) == AddTo(FoldSubs(data[..i]), data[i].subCategory, data[i].balance)
    ensures Sum(Balances(data[..i + 1])) == Sum(Balances(data[..i])) + data[i].balance
  {
    var h, d := data[i], data[..i + 1];
    assert d[..|d| - 1] == data[..i] && d[|d| - 1] == h;
    assert d == data[..i] + [h];
    BalancesSnoc(data[..i], h);
    SumAppend(Balances(data[..i]), [h.balance]);
  }

  /** What the `get_category_data` summary holds. */
  lemma CategoryDataShape(rows: seq<Holding>, name: string)
    ensures var summary := FoldSubs(CategoryQuery(rows, name));
      Sum(Values(summary)) == Sum(Balances(CategoryQuery(rows, name))) &&
      DistinctKeys(summary) && AllPositive(summary) &&
      (forall sub :: Get(summary, sub) == (if HasPair(CategoryQuery(rows, name), name, sub) then Some(SubTotal(CategoryQuery(rows, name), name, sub)) else None)) &&
      (forall sub :: Get(summary, sub) == (if HasPositivePair(rows, name, sub) then Some(PositiveSubTotal(rows, name, sub)) else None))
  {
    var data := CategoryQuery(rows, name);
    var summary := FoldSubs(data);
    FoldSubsShape(data);
    forall sub | true
      ensures Get(summary, sub) == if HasPair(data, name, sub) then Some(SubTotal(data, name, sub)) else None
    {
      FoldSubsGet(data, name, sub);
    }
    forall sub | true
      ensures Get(summary, sub) == if HasPositivePair(rows, name, sub) then Some(PositiveSubTotal(rows, name, sub)) else None
    {
      QueryPair(rows, name, sub);
    }
  }

  /**
   * The `dashboard` loop of the legacy main.py (183-203), repeated verbatim
   * in backend/main.py (173-193): every legacy Portfolios entry is added to
   * its category and sub-category, with no filtering at all.
   */
  method LegacyDashboard(entries: seq<Holding>) returns (summary: Summary)
    ensures summary == Fold(entries)
    ensures DistinctKeys(summary) && TotalsAgree(summary)
    ensures GrandTotal(summary) == Sum(Balances(entries))
    ensures forall k :: Get(summary, k).Some? <==> HasCategory(entries, k)
    ensures forall k :: Get(summary, k).Some? ==> Get(summary, k).value.totalBalance == CategoryTotal(entries, k)
    ensures forall k, sub :: Get(SubsOf(summary, k), sub) == (if HasPair(entries, k, sub) then Some(SubTotal(entries, k, sub)) else None)
  {
    summary := [];
    var i := 0;
    while i < |entries|
      invariant 0 <= i <= |entries|
      invariant summary == Fold(entries[..i])
    {
      assert entries[..i + 1][..i] == entries[..i];
      summary := AddHolding(summary, entries[i]);
      i := i + 1;
    }
    assert entries[..i] == entries;
    FoldShape(entries);
    forall k | true
      ensures Get(summary, k).Some? <==> HasCategory(entries, k)
      ensures Get(summary, k).Some? ==> Get(summary, k).value.totalBalance == CategoryTotal(entries, k)
    {
      FoldCategory(entries, k);
    }
    forall k, sub | true
      ensures Get(SubsOf(summary, k), sub) == if HasPair(entries, k, sub) then Some(SubTotal(entries, k, sub)) else None
    {
      FoldSub(entries, k, sub);
    }
  }

  /** Adding `x` and then `y` under the same key is adding `x + y`. */
  lemma {:induction false} AddToTwice(d: seq<(string, int)>, k: string, x: int, y: int)
    ensures AddTo(AddTo(d, k, x), k, y) == AddTo(d, k, x + y)
  {
    if d != [] && d[0].0 != k {
      AddToTwice(d[1..], k, x, y);
      assert AddTo(d, k, x)[1..] == AddTo(d[1..], k, x);
    }
  }

  /** Two rows of one pair, added one after the other, add as one row holding their sum. */
  lemma {:induction false} AddHoldingTwice(s: Summary, a: Holding, b: Holding)
    requires a.category == b.category && a.subCategory == b.subCategory
    ensures AddHolding(AddHolding(s, a), b) == AddHolding(s, Holding(a.balance + b.balance, a.category, a.subCategory))
  {
    if s == [] {
      AddToTwice([], a.subCategory, a.balance, b.balance);
    } else if s[0].0 == a.category {
      AddToTwice(s[0].1.subCategories, a.subCategory, a.balance, b.balance);
      assert AddHolding(s, a)[1..] == s[1..];
    } else {
      AddHoldingTwice(s[1..], a, b);
      assert AddHolding(s, a)[1..] == AddHolding(s[1..], a);
    }
  }

  /** Rows that fold alike keep folding alike, whatever rows follow them. */
  lemma {:induction false} FoldExtend(x: seq<Holding>, y: seq<Holding>, r: seq<Holding>)
    requires Fold(x) == Fold(y)
    ensures Fold(x + r) == Fold(y + r)
  {
    if r == [] {
      assert x + r == x && y + r == y;
    } else {
      var init := r[..|r| - 1];
      FoldExtend(x, y, init);
      assert (x + r)[..|x + r| - 1] == x + init;
      assert (y + r)[..|y + r| - 1] == y + init;
    }
  }

  /**
   * Duplicates are summed, not overwritten: wherever two rows of the same
   * pair stand next to each other, the summary is the one built from a
   * single row holding their sum.
   */
  lemma DuplicatesSummed(before: seq<Holding>, after: seq<Holding>, x: int, y: int, k: string, sub: string)
    ensures Fold(before + [Holding(x, k, sub), Holding(y, k, sub)] + after) == Fold(before + [Holding(x + y, k, sub)] + after)
  {
    var a, b, c := Holding(x, k, sub), Holding(y, k, sub), Holding(x + y, k, sub);
    var two, one := before + [a, b], before + [c];
    assert two[..|two| - 1] == before + [a] && (before + [a])[..|before|] == before;
    assert one[..|one| - 1] == before;
    AddHoldingTwice(Fold(before), a, b);
    FoldExtend(two, one, after);
  }
}
