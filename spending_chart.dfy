/** The spending chart: expenses totalled per category and per month token, and
    the five categories with the largest totals. Each total is a fold over the
    transaction list into an insertion-ordered dictionary, as `reduce` builds
    the object. */
module SpendingChart {
  import opened Util
  import opened Text
  import opened Calendar
  import opened Records
  import opened MonthBuckets

  const OtherCategory: string := "Other"
  const TopCount: nat := 5

  /** One bar of the top-categories list. */
  datatype CategoryAmount = CategoryAmount(category: string, amount: real)

  /** `t.category || 'Other'`. */
  function CategoryKey(t: Transaction): (k: string)
    ensures k != ""
    ensures t.category != "" ==> k == t.category
    ensures t.category == "" ==> k == OtherCategory
  {
    if t.category == "" then OtherCategory else t.category
  }

  /** `t.date.split(' ')[0]`: the text before the first space. */
  function MonthToken(t: Transaction): (k: string)
    ensures ' ' !in k
    ensures k <= t.date
  {
    var parts := Split(t.date, ' ');
    SplitFirstIsPrefix(t.date, ' ');
    parts[0]
  }

  lemma {:induction false} SplitFirstIsPrefix(s: string, sep: char)
    ensures Split(s, sep)[0] <= s
  {
    JoinSplit(s, sep);
    var parts := Split(s, sep);
    if |parts| > 1 {
      JoinPrefix(parts, [sep]);
    }
  }

  lemma {:induction false} JoinPrefix(pieces: seq<string>, sep: string)
    requires |pieces| >= 1
    ensures pieces[0] <= Join(pieces, sep)
  {
    if |pieces| > 1 {
      assert Join(pieces, sep) == pieces[0] + sep + Join(pieces[1..], sep);
    }
  }

  /** The object `reduce` builds: for each expense (`amount < 0`) in list order,
      `acc[key(t)] = (acc[key(t)] || 0) + Math.abs(t.amount)`. */
  function GroupExpenses(txs: seq<Transaction>, key: Transaction -> string): Dict<string, real> {
    if |txs| == 0 then []
    else
      var acc := GroupExpenses(txs[..|txs| - 1], key);
      var t := txs[|txs| - 1];
      if t.amount < 0.0 then Accumulate(acc, key(t), Abs(t.amount)) else acc
  }

  /** The sum of `|amount|` over the expenses whose key is `k`. */
  function KeyTotal(txs: seq<Transaction>, key: Transaction -> string, k: string): real {
    if |txs| == 0 then 0.0
    else
      var t := txs[|txs| - 1];
      KeyTotal(txs[..|txs| - 1], key, k) + (if t.amount < 0.0 && key(t) == k then Abs(t.amount) else 0.0)
  }

  /** Some expense of `txs` has key `k`. */
  predicate HasExpenseWithKey(txs: seq<Transaction>, key: Transaction -> string, k: string) {
    exists i :: 0 <= i < |txs| && txs[i].amount < 0.0 && key(txs[i]) == k
  }

  /** A key is present exactly when some expense has it, and its value is the
      total of those expenses; incomes and zero amounts never contribute. */
  lemma {:induction false} GroupExpensesGet(txs: seq<Transaction>, key: Transaction -> string, k: string)
    ensures HasKey(GroupExpenses(txs, key), k) <==> HasExpenseWithKey(txs, key, k)
    ensures Get(GroupExpenses(txs, key), k).GetOr(0.0) == KeyTotal(txs, key, k)
  {
    if |txs| > 0 {
      var prefix := txs[..|txs| - 1];
      var t := txs[|txs| - 1];
      GroupExpensesGet(prefix, key, k);
      if HasExpenseWithKey(prefix, key, k) {
        var i :| 0 <= i < |prefix| && prefix[i].amount < 0.0 && key(prefix[i]) == k;
        assert txs[i] == prefix[i];
      }
      if HasExpenseWithKey(txs, key, k) {
        var i :| 0 <= i < |txs| && txs[i].amount < 0.0 && key(txs[i]) == k;
        if i < |prefix| {
          assert prefix[i] == txs[i];
        }
      }
    }
  }

  /** Every total is positive, and the totals together are the expense total:
      each expense is counted once, under one key. */
  lemma {:induction false} GroupExpensesSum(txs: seq<Transaction>, key: Transaction -> string)
    ensures AllPositive(GroupExpenses(txs, key))
    ensures ValuesSum(GroupExpenses(txs, key)) == ExpenseTotal(txs)
  {
    if |txs| > 0 {
      var prefix := txs[..|txs| - 1];
      var t := txs[|txs| - 1];
      GroupExpensesSum(prefix, key);
      if t.amount < 0.0 {
        var acc := GroupExpenses(prefix, key);
        GetPositive(acc, key(t));
        PutPositive(acc, key(t), Get(acc, key(t)).GetOr(0.0) + Abs(t.amount));
        AccumulateSum(acc, key(t), Abs(t.amount));
      }
    }
  }

  /** `categorySpending`. */
  function CategorySpending(txs: seq<Transaction>): (d: Dict<string, real>)
    ensures AllPositive(d) && ValuesSum(d) == ExpenseTotal(txs)
    ensures !HasKey(d, "")
  {
    GroupExpensesSum(txs, CategoryKey);
    GroupExpensesGet(txs, CategoryKey, "");
    GroupExpenses(txs, CategoryKey)
  }

  /** A category's bar is the total of its expenses; an expense without a
      category is counted under 'Other'. */
  lemma CategorySpendingGet(txs: seq<Transaction>, c: string)
    ensures HasKey(CategorySpending(txs), c) <==> HasExpenseWithKey(txs, CategoryKey, c)
    ensures Get(CategorySpending(txs), c).GetOr(0.0) == KeyTotal(txs, CategoryKey, c)
    ensures forall i :: 0 <= i < |txs| && txs[i].amount < 0.0 && txs[i].category == "" ==>
      HasKey(CategorySpending(txs), OtherCategory)
  {
    GroupExpensesGet(txs, CategoryKey, c);
    GroupExpensesGet(txs, CategoryKey, OtherCategory);
  }

  /** `monthlySpending`. */
  function MonthlySpending(txs: seq<Transaction>): (d: Dict<string, real>)
    ensures AllPositive(d) && ValuesSum(d) == ExpenseTotal(txs)
  {
    GroupExpensesSum(txs, MonthToken);
    GroupExpenses(txs, MonthToken)
  }

  /** A month's total is the total of the expenses whose date starts with that
      token. */
  lemma MonthlySpendingGet(txs: seq<Transaction>, m: string)
    ensures HasKey(MonthlySpending(txs), m) <==> HasExpenseWithKey(txs, MonthToken, m)
    ensures Get(MonthlySpending(txs), m).GetOr(0.0) == KeyTotal(txs, MonthToken, m)
  {
    GroupExpensesGet(txs, MonthToken, m);
  }

  /** A date without a space is a key of its own: "Today" and "Yesterday" get
      bars of their own, apart from the month they fall in. */
  lemma MonthTokenOfWord(t: Transaction)
    requires ' ' !in t.date
    ensures MonthToken(t) == t.date
  {
    SplitWithoutSeparator(t.date, ' ');
  }

  /** A date in the form the transaction form writes is keyed by its month
      abbreviation, whatever the day. */
  lemma MonthTokenOfShortDate(t: Transaction, m: int, d: nat)
    requires 0 <= m < 12 && t.date == MonthAbbreviations[m] + " " + NatToString(d)
    ensures MonthToken(t) == MonthAbbreviations[m]
  {
    var digits := NatToString(d);
    assert ' ' !in MonthAbbreviations[m];
    assert ' ' !in digits by {
      forall i | 0 <= i < |digits| ensures digits[i] != ' ' {
        assert IsDigit(digits[i]);
      }
    }
    SplitTwo(MonthAbbreviations[m], digits, ' ');
  }

  /** The sorted entries are exactly the entries of the dictionary. */
  lemma SortDescMembers(d: Dict<string, real>)
    ensures forall e :: e in SortDesc(d) <==> e in d
  {
    SortDescProps(d);
    forall e ensures e in SortDesc(d) <==> e in d {
      assert e in SortDesc(d) <==> e in multiset(SortDesc(d));
      assert e in d <==> e in multiset(d);
    }
  }

  /** The first `n` sorted entries are the largest: every entry past them is at
      most the last of them, and the first is the first entry of largest value. */
  lemma SortedPrefixIsLargest(d: Dict<string, real>, n: nat)
    requires 0 < n <= |d|
    ensures |SortDesc(d)| == |d|
    ensures SortDesc(d)[0] == d[ArgMaxFirst(Values(d))]
    ensures forall e :: e in d && e !in SortDesc(d)[..n] ==> e.1 <= SortDesc(d)[n - 1].1
  {
    var sorted := SortDesc(d);
    SortDescProps(d);
    SortDescMembers(d);
    SortDescHead(d);
    forall e | e in d && e !in sorted[..n]
      ensures e.1 <= sorted[n - 1].1
    {
      var p :| 0 <= p < |sorted| && sorted[p] == e;
    }
  }

  /** `Object.entries(d).sort(([, a], [, b]) => b - a).slice(0, 5)`: the
      largest entries, largest first (ties keep their insertion order). */
  function TopEntries(d: Dict<string, real>): (r: Dict<string, real>)
    ensures |r| == if |d| < TopCount then |d| else TopCount
    ensures SortedDesc(r)
    ensures forall e :: e in r ==> e in d
    ensures |d| > 0 ==> r[0] == d[ArgMaxFirst(Values(d))]
    ensures forall e :: e in d && e !in r ==> e.1 <= r[|r| - 1].1
  {
    SortDescProps(d);
    SortDescMembers(d);
    var n := if |d| < TopCount then |d| else TopCount;
    if n == 0 then []
    else
      SortedPrefixIsLargest(d, n);
      SortDesc(d)[..n]
  }

  /** `.map(([category, amount]) => ({ category, amount }))`. */
  function Bar(e: (string, real)): (b: CategoryAmount)
    ensures b.category == e.0 && b.amount == e.1
  {
    CategoryAmount(e.0, e.1)
  }

  function Bars(entries: Dict<string, real>): (r: seq<CategoryAmount>)
    ensures |r| == |entries|
    ensures forall i :: 0 <= i < |r| ==> r[i] == Bar(entries[i])
    ensures forall e :: Bar(e) in r <==> e in entries
  {
    var r := seq(|entries|, i requires 0 <= i < |entries| => Bar(entries[i]));
    assert forall e :: Bar(e) in r ==> e in entries by {
      forall e | Bar(e) in r ensures e in entries {
        var i :| 0 <= i < |r| && r[i] == Bar(e);
        assert entries[i] == e;
      }
    }
    r
  }

  /** `topCategories`: the five categories of largest total, as bars. */
  function TopCategories(txs: seq<Transaction>): (r: seq<CategoryAmount>)
    ensures var spending := CategorySpending(txs);
      |r| == if |spending| < TopCount then |spending| else TopCount
    ensures forall i, j :: 0 <= i < j < |r| ==> r[i].amount >= r[j].amount
    ensures forall i :: 0 <= i < |r| ==> r[i].amount > 0.0 && (r[i].category, r[i].amount) in CategorySpending(txs)
  {
    Bars(TopEntries(CategorySpending(txs)))
  }

  /** No category left out of the list outspends the last one in it, and the
      first bar is the first category of largest total. */
  lemma TopCategoriesAreLargest(txs: seq<Transaction>)
    ensures var spending := CategorySpending(txs); var top := TopCategories(txs);
      |spending| > 0 ==> top[0] == Bar(spending[ArgMaxFirst(Values(spending))])
    ensures var spending := CategorySpending(txs); var top := TopCategories(txs);
      forall e :: e in spending && Bar(e) !in top ==> e.1 <= top[|top| - 1].amount
  {
    var entries := TopEntries(CategorySpending(txs));
    assert TopCategories(txs) == Bars(entries);
  }
}
