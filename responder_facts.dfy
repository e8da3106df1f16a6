/** What the dispatcher promises: rule priority, the unreachable
    "should i start sip" alternative, the spending rule's answer, the alias
    table, and the behaviour without a known user. */
module ResponderFacts {
  import opened Wrappers
  import opened JsString
  import opened CategoryRegex
  import opened JsNumber
  import opened UserData
  import opened Responder

  /** The answer depends on the message only through its lower-case form. */
  lemma CaseInsensitive(users: map<string, Snapshot>, show: int -> string, m1: string, m2: string,
                        userId: Option<string>)
    requires Lower(m1) == Lower(m2)
    ensures GenerateResponse(users, show, m1, userId) == GenerateResponse(users, show, m2, userId)
  {
  }

  /** Lower-casing the message first makes no difference. */
  lemma LowerCasedMessageSameAnswer(users: map<string, Snapshot>, show: int -> string, m: string,
                                    userId: Option<string>)
    ensures GenerateResponse(users, show, Lower(m), userId) == GenerateResponse(users, show, m, userId)
  {
    LowerIdempotent(m);
  }

  /** Every message containing "should i start sip" contains "sip". */
  lemma StartSipContainsSip(m: string)
    requires Contains(m, "should i start sip")
    ensures Contains(m, "sip")
  {
    assert StartsAt("should i start sip", "sip", 15);
    ContainsTransitive(m, "should i start sip", "sip");
  }

  /** The comparison rule answers exactly the messages that mention a lump
      sum and neither "sip" nor "systematic"; its "should i start sip" test
      never decides anything. */
  lemma SipVsLumpSumExactly(m: string)
    ensures KeywordRule(m) == SipVsLumpSum <==>
      Contains(m, "lump sum") && !Contains(m, "sip") && !Contains(m, "systematic")
  {
    if Contains(m, "should i start sip") {
      StartSipContainsSip(m);
    }
  }

  /** Lengths of bullets that tell the personal templates apart from the
      comparison template, whose bullets both have 50 characters. */
  lemma PersonalInsightLengths(u: Snapshot, c: string, food: int, show: int -> string)
    ensures |SpendingTemplate(u, c, show).actionableInsight[0]| == 61
    ensures |BalanceTemplate(u, show).actionableInsight[0]| == 69
    ensures |TotalExpensesTemplate(u, food, show).actionableInsight[1]| == 68
    ensures |SIP_VS_LUMP_SUM_TEMPLATE.actionableInsight[0]| == |SIP_VS_LUMP_SUM_TEMPLATE.actionableInsight[1]| == 50
  {
  }

  /** Summary lengths that tell the keyword templates apart from the
      comparison template; the low-risk one differs in its details. */
  lemma KeywordTemplateLengths()
    ensures |SIP_VS_LUMP_SUM_TEMPLATE.summary| == 75 && |SIP_VS_LUMP_SUM_TEMPLATE.details| == 160
    ensures |SIP_TEMPLATE.summary| == 55
    ensures |LOW_RISK_PORTFOLIO_TEMPLATE.details| == 135
    ensures |MUTUAL_FUND_SIMPLE_TEMPLATE.summary| == 51
    ensures |MUTUAL_FUND_TEMPLATE.summary| == 47
    ensures |FINVIEW_TEMPLATE.summary| == 57
    ensures |TAX_PLANNING_TEMPLATE.summary| == 53
    ensures |EMI_PLANNING_TEMPLATE.summary| == 69
    ensures |SAVINGS_OPTIMIZATION_TEMPLATE.summary| == 59
    ensures |DEFAULT_TEMPLATE.summary| == 47
  {
  }

  lemma SpendingNotComparison(u: Snapshot, c: string, show: int -> string)
    ensures Render(Spending(u, c), show) != Success(SIP_VS_LUMP_SUM_TEMPLATE)
  {
    assert Render(Spending(u, c), show).value == SpendingTemplate(u, c, show);
    PersonalInsightLengths(u, c, 0, show);
  }

  lemma BalanceNotComparison(u: Snapshot, show: int -> string)
    ensures Render(Balance(u), show) != Success(SIP_VS_LUMP_SUM_TEMPLATE)
  {
    assert Render(Balance(u), show).value == BalanceTemplate(u, show);
    PersonalInsightLengths(u, "", 0, show);
  }

  lemma TotalExpensesNotComparison(u: Snapshot, show: int -> string)
    ensures Render(TotalExpenses(u), show) != Success(SIP_VS_LUMP_SUM_TEMPLATE)
  {
    var food := Lookup(u.categories, "Food & Dining");
    if food.Some? {
      assert Render(TotalExpenses(u), show).value == TotalExpensesTemplate(u, food.value, show);
      PersonalInsightLengths(u, "", food.value, show);
    }
  }

  /** No personal rule renders the comparison template. */
  lemma PersonalNotComparison(rule: Rule, show: int -> string)
    requires rule.Personal()
    ensures Render(rule, show) != Success(SIP_VS_LUMP_SUM_TEMPLATE)
  {
    match rule
    case Spending(u, c) => SpendingNotComparison(u, c, show);
    case Balance(u) => BalanceNotComparison(u, show);
    case TotalExpenses(u) => TotalExpensesNotComparison(u, show);
  }

  /** No other keyword rule renders the comparison template. */
  lemma KeywordNotComparison(rule: Rule, show: int -> string)
    requires !rule.Personal() && rule != SipVsLumpSum
    ensures Render(rule, show) != Success(SIP_VS_LUMP_SUM_TEMPLATE)
  {
    KeywordTemplateLengths();
  }

  /** No other rule renders the comparison template. */
  lemma OnlySipVsLumpSumRendersIt(rule: Rule, show: int -> string)
    requires Render(rule, show) == Success(SIP_VS_LUMP_SUM_TEMPLATE)
    ensures rule == SipVsLumpSum
  {
    if rule.Personal() {
      PersonalNotComparison(rule, show);
    } else if rule != SipVsLumpSum {
      KeywordNotComparison(rule, show);
    }
  }

  /** The same for the whole generator: the comparison template is the answer
      exactly when no personal rule answers and the message mentions a lump
      sum but neither "sip" nor "systematic". */
  lemma SipVsLumpSumAnswer(users: map<string, Snapshot>, show: int -> string, raw: string,
                           userId: Option<string>)
    ensures var m := Lower(raw);
      var u := Resolve(users, userId);
      GenerateResponse(users, show, raw, userId) == Success(SIP_VS_LUMP_SUM_TEMPLATE) <==>
        && (u.None? || PersonalRule(m, u.value).None?)
        && Contains(m, "lump sum") && !Contains(m, "sip") && !Contains(m, "systematic")
  {
    var m := Lower(raw);
    var rule := Classify(m, Resolve(users, userId));
    SipVsLumpSumExactly(m);
    if GenerateResponse(users, show, raw, userId) == Success(SIP_VS_LUMP_SUM_TEMPLATE) {
      OnlySipVsLumpSumRendersIt(rule, show);
    }
  }

  /** The category a matched spending question asks about is the trimmed
      capture, or its canonical name when it is an alias. */
  lemma SpendingCategoryIsTrimmedCapture(raw: string)
    requires Capture(Lower(raw)).Some?
    ensures var c := Trim(Capture(Lower(raw)).value);
      && SpendingCategory(Lower(raw)) == Some(if c in CATEGORY_ALIASES then CATEGORY_ALIASES[c] else c)
      && forall k :: 0 <= k < |c| ==> !LineTerminator(c[k])
  {
    var m := Lower(raw);
    var cap := Capture(m).value;
    LowerIsLower(raw);
    CaptureKeepsLower(m);
    TrimKeepsLower(cap);
    LowerFixesLower(Trim(cap));
    CaptureHasNoLineTerminator(m);
  }

  /** For a known user, a matched spending question is answered by the
      spending rule, whatever else the message mentions ("sip", "balance",
      "mutual fund", ...): the spending template is returned, and its summary
      names the amount and the category. */
  lemma SpendingTakesPriority(users: map<string, Snapshot>, show: int -> string, raw: string,
                              userId: Option<string>)
    requires Resolve(users, userId).Some?
    requires Contains(Lower(raw), "how much did i spend on") && Contains(Lower(raw), "this month")
    requires Capture(Lower(raw)).Some?
    ensures var u := Resolve(users, userId).value;
      var cat := SpendingCategory(Lower(raw)).value;
      var amount := CategoryAmount(u, cat);
      && GenerateResponse(users, show, raw, userId) == Success(SpendingTemplate(u, cat, show))
      && GenerateResponse(users, show, raw, userId).value.summary == SpentSentence(show, amount, cat)
      && GenerateResponse(users, show, raw, userId).value.details ==
         "This represents " + Fixed1Text(PercentOf(amount, MonthlyTotal(u))) + "% of your total monthly expenses."
  {
  }

  /** Once the pattern matches there is no fall-through: a category the
      snapshot does not have is reported as 0 spent, under the lower-cased,
      trimmed capture. */
  lemma UnknownCategorySpentZero(users: map<string, Snapshot>, show: int -> string, raw: string,
                                 userId: Option<string>)
    requires Resolve(users, userId).Some?
    requires Contains(Lower(raw), "how much did i spend on") && Contains(Lower(raw), "this month")
    requires Capture(Lower(raw)).Some?
    requires Trim(Capture(Lower(raw)).value) !in CATEGORY_ALIASES
    requires Trim(Capture(Lower(raw)).value) !in Names(Resolve(users, userId).value.categories)
    ensures var name := Trim(Capture(Lower(raw)).value);
      GenerateResponse(users, show, raw, userId).Success? &&
      GenerateResponse(users, show, raw, userId).value.summary == SpentSentence(show, 0, name)
  {
    SpendingCategoryIsTrimmedCapture(raw);
    SpendingTakesPriority(users, show, raw, userId);
  }

  /** An alias is already lower-case, so it is looked up as it stands. */
  lemma AliasResolves(a: string)
    requires a in CATEGORY_ALIASES && IsLower(a)
    ensures MapCategory(a) == CATEGORY_ALIASES[a]
  {
    LowerFixesLower(a);
  }

  /** Two spellings each name the food and the bills category. */
  lemma TwoSpellingAliases()
    ensures MapCategory("food") == MapCategory("food and dining") == "Food & Dining"
    ensures MapCategory("bills") == MapCategory("utilities") == "Bills & Utilities"
  {
    AliasResolves("food");
    AliasResolves("food and dining");
    AliasResolves("bills");
    AliasResolves("utilities");
  }

  /** The other six aliases are the category names in lower case. */
  lemma CapitalisedAliases()
    ensures MapCategory("transportation") == "Transportation"
    ensures MapCategory("entertainment") == "Entertainment"
    ensures MapCategory("shopping") == "Shopping"
    ensures MapCategory("housing") == "Housing"
    ensures MapCategory("healthcare") == "Healthcare"
    ensures MapCategory("education") == "Education"
  {
    AliasResolves("transportation");
    AliasResolves("entertainment");
    AliasResolves("shopping");
    AliasResolves("housing");
    AliasResolves("healthcare");
    AliasResolves("education");
  }

  /** Every alias names a category of the mock user. */
  lemma AliasTargetsAreMockCategories()
    ensures forall a :: a in CATEGORY_ALIASES ==> CATEGORY_ALIASES[a] in Names(USER123.categories)
  {
  }

  /** A lower-case name outside the table is used unchanged. */
  lemma UnaliasedNameUnchanged(name: string)
    requires IsLower(name) && name !in CATEGORY_ALIASES
    ensures MapCategory(name) == name
  {
    LowerFixesLower(name);
  }

  /** Without a resolvable user (no id, the empty id, or an id the table
      lacks) no personal rule fires: the answer is the
      first keyword rule that matches. */
  lemma NoUserOnlyKeywords(users: map<string, Snapshot>, show: int -> string, raw: string,
                           userId: Option<string>)
    requires Resolve(users, userId).None?
    ensures !Classify(Lower(raw), Resolve(users, userId)).Personal()
    ensures GenerateResponse(users, show, raw, userId) == Render(KeywordRule(Lower(raw)), show)
  {
  }

  /** The default template answers exactly the messages that contain none of
      the keywords. */
  lemma FallbackExactly(m: string)
    ensures KeywordRule(m) == Fallback <==>
      && !Contains(m, "sip") && !Contains(m, "systematic") && !Contains(m, "lump sum")
      && !(Contains(m, "portfolio") && Contains(m, "low risk"))
      && !Contains(m, "mutual fund") && !Contains(m, "mf")
      && !Contains(m, "what is finview") && !Contains(m, "budget tracker")
      && !Contains(m, "tax planning") && !Contains(m, "emi planning") && !Contains(m, "savings optimization")
  {
    if Contains(m, "should i start sip") {
      StartSipContainsSip(m);
    }
  }

  /** An unknown user sending an unmatched message gets the default summary. */
  lemma NoUserNoKeywordDefault(users: map<string, Snapshot>, show: int -> string, raw: string,
                               userId: Option<string>)
    requires Resolve(users, userId).None?
    requires KeywordRule(Lower(raw)) == Fallback
    ensures GenerateResponse(users, show, raw, userId) == Success(DEFAULT_TEMPLATE)
    ensures DEFAULT_TEMPLATE.summary == "I'm here to help with your financial questions!"
  {
  }

  /** A message mentioning "sip" gets the SIP template unless a personal rule
      answers it first. */
  lemma SipAnswer(users: map<string, Snapshot>, show: int -> string, raw: string, userId: Option<string>)
    requires Contains(Lower(raw), "sip")
    requires Resolve(users, userId).None? || PersonalRule(Lower(raw), Resolve(users, userId).value).None?
    ensures GenerateResponse(users, show, raw, userId) == Success(SIP_TEMPLATE)
  {
  }

  /** The generator throws only in the total-expense rule, for a snapshot
      without "Food & Dining"; for the mock table it never throws. */
  lemma FailsOnlyWithoutFood(users: map<string, Snapshot>, show: int -> string, raw: string,
                             userId: Option<string>)
    ensures GenerateResponse(users, show, raw, userId).Failure? <==>
      && Resolve(users, userId).Some?
      && Classify(Lower(raw), Resolve(users, userId)) == TotalExpenses(Resolve(users, userId).value)
      && "Food & Dining" !in Names(Resolve(users, userId).value.categories)
  {
  }

  lemma MockNeverFails(show: int -> string, raw: string, userId: Option<string>)
    ensures GenerateResponse(MOCK_USER_DATA, show, raw, userId).Success?
  {
    assert "Food & Dining" in Names(USER123.categories);
  }

  /** The balance template of a snapshot: the monthly total is the category
      sum, and the savings rate is taken from income minus that sum. */
  lemma BalanceRendered(u: Snapshot, show: int -> string)
    ensures Render(Balance(u), show).Success?
    ensures Render(Balance(u), show).value.summary == "Your current balance is " + RUPEE + show(u.balance) + "."
    ensures Render(Balance(u), show).value.details ==
      "With total monthly expenses of " + RUPEE + show(MonthlyTotal(u)) + " against income of " + RUPEE
      + show(u.totalIncome) + ", you have a savings rate of "
      + Fixed1Text(PercentOf(u.totalIncome - MonthlyTotal(u), u.totalIncome)) + "%."
  {
  }

  /** For a known user whose message is no matched spending question, a
      message with "balance" and "low" or "why" gets the balance template. */
  lemma BalanceAnswer(users: map<string, Snapshot>, show: int -> string, raw: string,
                      userId: Option<string>)
    requires Resolve(users, userId).Some?
    requires !(Contains(Lower(raw), "how much did i spend on") && Contains(Lower(raw), "this month")
               && SpendingCategory(Lower(raw)).Some?)
    requires Contains(Lower(raw), "balance") && (Contains(Lower(raw), "low") || Contains(Lower(raw), "why"))
    ensures GenerateResponse(users, show, raw, userId) == Render(Balance(Resolve(users, userId).value), show)
  {
    var u := Resolve(users, userId).value;
    assert PersonalRule(Lower(raw), u) == Some(Balance(u));
  }

  /** The total-expense template quotes the category sum and the
      "Food & Dining" amount. */
  lemma TotalExpensesRendered(u: Snapshot, show: int -> string)
    requires "Food & Dining" in Names(u.categories)
    ensures Render(TotalExpenses(u), show) ==
      Success(TotalExpensesTemplate(u, CategoryAmount(u, "Food & Dining"), show))
    ensures TotalExpensesTemplate(u, CategoryAmount(u, "Food & Dining"), show).summary ==
      "Your total expenses this month are " + RUPEE + show(MonthlyTotal(u)) + "."
    ensures TotalExpensesTemplate(u, CategoryAmount(u, "Food & Dining"), show).details ==
      "Your highest expense category is Food & Dining at " + RUPEE
      + show(CategoryAmount(u, "Food & Dining")) + "."
  {
    assert Lookup(u.categories, "Food & Dining") == Some(CategoryAmount(u, "Food & Dining"));
  }

  /** For a known user with a "Food & Dining" category, a message about total
      expense or spending that neither the spending nor the balance rule
      answers gets the total-expense template. */
  lemma TotalExpensesAnswer(users: map<string, Snapshot>, show: int -> string, raw: string,
                            userId: Option<string>)
    requires Resolve(users, userId).Some?
    requires "Food & Dining" in Names(Resolve(users, userId).value.categories)
    requires !(Contains(Lower(raw), "how much did i spend on") && Contains(Lower(raw), "this month")
               && SpendingCategory(Lower(raw)).Some?)
    requires !(Contains(Lower(raw), "balance") && (Contains(Lower(raw), "low") || Contains(Lower(raw), "why")))
    requires Contains(Lower(raw), "total expense") || Contains(Lower(raw), "total spending")
    ensures var u := Resolve(users, userId).value;
      GenerateResponse(users, show, raw, userId) ==
        Success(TotalExpensesTemplate(u, Lookup(u.categories, "Food & Dining").value, show))
  {
    var u := Resolve(users, userId).value;
    assert PersonalRule(Lower(raw), u) == Some(TotalExpenses(u));
  }

  /** With no negative amounts and a positive total, the spending share
      prints between 0.0 and 100.0 and never with a minus sign. */
  lemma SpendingShareBounded(u: Snapshot, category: string)
    requires NonNegative(u.categories) && MonthlyTotal(u) > 0
    ensures var p := PercentOf(CategoryAmount(u, category), MonthlyTotal(u));
      p.Tenths? && !p.negative && p.tenths <= 1000
  {
    CategoryAmountBounded(u, category);
    PercentOfShareBounded(CategoryAmount(u, category), MonthlyTotal(u));
  }

  /** With zero income the savings rate is not guarded: it prints "NaN" when
      the monthly total is 0, "-Infinity" when it is positive and "Infinity"
      when it is negative. */
  lemma ZeroIncomeSavingsRate(u: Snapshot)
    requires u.totalIncome == 0
    ensures MonthlyTotal(u) == 0 ==> Fixed1Text(PercentOf(u.totalIncome - MonthlyTotal(u), u.totalIncome)) == "NaN"
    ensures MonthlyTotal(u) > 0 ==> Fixed1Text(PercentOf(u.totalIncome - MonthlyTotal(u), u.totalIncome)) == "-Infinity"
    ensures MonthlyTotal(u) < 0 ==> Fixed1Text(PercentOf(u.totalIncome - MonthlyTotal(u), u.totalIncome)) == "Infinity"
  {
  }

  lemma MockFoodAmount()
    ensures CategoryAmount(USER123, "Food & Dining") == 8500
  {
  }

  lemma MockPercentages()
    ensures PercentOf(8500, 34000) == Tenths(false, 250)
    ensures PercentOf(50000 - 34000, 50000) == Tenths(false, 320)
  {
    assert RoundHalfUp(8500000, 34000) == 250;
    assert RoundHalfUp(16000000, 50000) == 320;
  }

  lemma MockFoodShare()
    ensures PercentOf(CategoryAmount(USER123, "Food & Dining"), MonthlyTotal(USER123)) == Tenths(false, 250)
  {
    MockFoodAmount();
    MockMonthlyTotal();
    MockPercentages();
  }

  lemma MockSavingsRate()
    ensures PercentOf(USER123.totalIncome - MonthlyTotal(USER123), USER123.totalIncome) == Tenths(false, 320)
  {
    MockMonthlyTotal();
    MockPercentages();
  }

  /** For the mock user, food is 25.0% of the month and the savings rate is
      32.0%, both measured against the category sum 34000. */
  lemma MockFigures()
    ensures Fixed1Text(PercentOf(CategoryAmount(USER123, "Food & Dining"), MonthlyTotal(USER123))) == "25.0"
    ensures Fixed1Text(PercentOf(USER123.totalIncome - MonthlyTotal(USER123), USER123.totalIncome)) == "32.0"
  {
    MockFoodShare();
    MockSavingsRate();
    MockTexts();
  }

  lemma MockTexts()
    ensures Fixed1Text(Tenths(false, 250)) == "25.0"
    ensures Fixed1Text(Tenths(false, 320)) == "32.0"
  {
    assert Decimal(25) == "25";
    assert Decimal(32) == "32";
  }

  /** The id "user123" resolves to the mock snapshot. */
  lemma MockResolves()
    ensures Resolve(MOCK_USER_DATA, Some("user123")) == Some(USER123)
  {
  }

  /** The mock user's balance details quote the category sum 34000, not the
      recorded 35000, and a 32.0% savings rate. */
  lemma MockBalanceRendered(show: int -> string)
    ensures Render(Balance(USER123), show).value.details ==
      "With total monthly expenses of " + RUPEE + show(34000) + " against income of " + RUPEE
      + show(50000) + ", you have a savings rate of " + "32.0" + "%."
  {
    BalanceRendered(USER123, show);
    var total := MonthlyTotal(USER123);
    assert total == 34000 by { MockMonthlyTotal(); }
    assert Fixed1Text(PercentOf(USER123.totalIncome - total, USER123.totalIncome)) == "32.0" by { MockFigures(); }
  }

  /** The mock user asking about a low balance is told of a 32.0% savings
      rate. */
  lemma MockBalanceReply(show: int -> string, raw: string)
    requires !(Contains(Lower(raw), "how much did i spend on") && Contains(Lower(raw), "this month")
               && SpendingCategory(Lower(raw)).Some?)
    requires Contains(Lower(raw), "balance") && (Contains(Lower(raw), "low") || Contains(Lower(raw), "why"))
    ensures GenerateResponse(MOCK_USER_DATA, show, raw, Some("user123")) == Render(Balance(USER123), show)
    ensures GenerateResponse(MOCK_USER_DATA, show, raw, Some("user123")).value.details ==
      "With total monthly expenses of " + RUPEE + show(34000) + " against income of " + RUPEE
      + show(50000) + ", you have a savings rate of " + "32.0" + "%."
  {
    MockResolves();
    BalanceAnswer(MOCK_USER_DATA, show, raw, Some("user123"));
    MockBalanceRendered(show);
  }
}
