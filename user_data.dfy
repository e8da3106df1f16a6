/** The per-user financial snapshot the chat server reads, the built-in mock
    table, and the two lookups `generateAIResponse` defines over a snapshot. */
module UserData {
  import opened Wrappers

  datatype Investment = Investment(name: string, amount: int, currentValue: int)

  datatype SipContribution = SipContribution(fund: string, monthlyAmount: int, totalContributed: int)

  datatype TransactionType = Income | Expense

  datatype Transaction = Transaction(title: string, amount: int, kind: TransactionType, category: string, date: string)

  /** One user's record. `categories` keeps the order of the object literal. */
  datatype Snapshot = Snapshot(
    totalIncome: int,
    totalExpenses: int,
    balance: int,
    categories: seq<(string, int)>,
    investments: seq<Investment>,
    sipContributions: seq<SipContribution>,
    recentTransactions: seq<Transaction>)

  const USER123 := Snapshot(
    50000,
    35000,
    15000,
    [("Food & Dining", 8500), ("Transportation", 3200), ("Entertainment", 2500), ("Shopping", 5000),
     ("Housing", 12000), ("Healthcare", 1200), ("Education", 800), ("Bills & Utilities", 800)],
    [Investment("NIFTY 50 Index Fund", 100000, 108500),
     Investment("Blue Chip Stocks", 50000, 52000),
     Investment("Debt Mutual Fund", 30000, 31500)],
    [SipContribution("NIFTY 50 Index Fund", 5000, 60000),
     SipContribution("Small Cap Fund", 2000, 24000)],
    [Transaction("Salary Credit", 50000, Income, "Salary", "2024-01-15"),
     Transaction("Zomato Order", 850, Expense, "Food & Dining", "2024-01-14"),
     Transaction("Uber Ride", 320, Expense, "Transportation", "2024-01-14")])

  /** `mockUserData`. */
  const MOCK_USER_DATA: map<string, Snapshot> := map["user123" := USER123]

  /** `userId ? users[userId] : null`: an absent or empty id resolves to nothing. */
  function Resolve(users: map<string, Snapshot>, userId: Option<string>): Option<Snapshot> {
    if userId.Some? && userId.value != "" && userId.value in users then Some(users[userId.value]) else None
  }

  /** The category names of a snapshot, in order. */
  function Names(cats: seq<(string, int)>): (r: seq<string>)
    ensures |r| == |cats|
    ensures forall i :: 0 <= i < |cats| ==> r[i] == cats[i].0
  {
    if cats == [] then [] else [cats[0].0] + Names(cats[1..])
  }

  /** `categories[name]`, if the object has that key. */
  function Lookup(cats: seq<(string, int)>, name: string): (r: Option<int>)
    ensures r.None? <==> name !in Names(cats)
    ensures r.Some? ==> exists i :: 0 <= i < |cats| && cats[i] == (name, r.value)
  {
    if cats == [] then None
    else if cats[0].0 == name then Some(cats[0].1)
    else Lookup(cats[1..], name)
  }

  /** `getCurrentMonthExpensesByCategory`: `categories[name] || 0`. Once a
      snapshot is present the answer is a number, never `null`; a missing
      name gives 0. */
  function CategoryAmount(u: Snapshot, name: string): (r: int)
    ensures name !in Names(u.categories) ==> r == 0
    ensures name in Names(u.categories) ==> Lookup(u.categories, name) == Some(r)
  {
    match Lookup(u.categories, name)
    case None => 0
    case Some(v) => v
  }

  /** Sum of the amounts, the `reduce` of `Object.values(categories)`. */
  function Sum(cats: seq<(string, int)>): (r: int)
    ensures NonNegative(cats) ==> r >= 0
  {
    if cats == [] then 0
    else
      assert NonNegative(cats) ==> NonNegative(cats[1..]);
      cats[0].1 + Sum(cats[1..])
  }

  /** `getTotalExpensesThisMonth`: the sum of the category amounts. The
      snapshot's own `totalExpenses` field plays no part. */
  function MonthlyTotal(u: Snapshot): (r: int)
    ensures NonNegative(u.categories) ==> r >= 0
  {
    Sum(u.categories)
  }

  predicate NonNegative(cats: seq<(string, int)>) {
    forall i :: 0 <= i < |cats| ==> cats[i].1 >= 0
  }

  /** With no negative amounts, each looked-up amount is part of the sum. */
  lemma {:induction false} LookupBoundedBySum(cats: seq<(string, int)>, name: string)
    requires NonNegative(cats)
    ensures 0 <= Sum(cats)
    ensures Lookup(cats, name).Some? ==> 0 <= Lookup(cats, name).value <= Sum(cats)
  {
    if cats != [] {
      assert NonNegative(cats[1..]);
      LookupBoundedBySum(cats[1..], name);
    }
  }

  lemma CategoryAmountBounded(u: Snapshot, name: string)
    requires NonNegative(u.categories)
    ensures 0 <= CategoryAmount(u, name) <= MonthlyTotal(u)
  {
    LookupBoundedBySum(u.categories, name);
  }

  /** For the mock user the monthly total is 34000, not the recorded 35000. */
  lemma MockMonthlyTotal()
    ensures MonthlyTotal(MOCK_USER_DATA["user123"]) == 34000
    ensures MonthlyTotal(MOCK_USER_DATA["user123"]) != MOCK_USER_DATA["user123"].totalExpenses
  {
  }
}
