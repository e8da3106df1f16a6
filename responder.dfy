/** `generateAIResponse`: a first-match-wins chain of substring rules over
    the lower-cased message. `Classify` picks the rule, `Render` fills its
    template, `GenerateResponse` composes the two. */
module Responder {
  import opened Wrappers
  import opened JsString
  import opened CategoryRegex
  import opened JsNumber
  import opened UserData

  /** The value of a reply: a one-line summary, a paragraph and bullets. */
  datatype Template = Template(summary: string, details: string, actionableInsight: seq<string>)

  /** The one failure: reading `toLocaleString` of a missing category. */
  datatype JsError = TypeError

  /** The rules, in the order they are tried. The three personal rules carry
      the snapshot they read. */
  datatype Rule =
    | Spending(user: Snapshot, category: string)
    | Balance(user: Snapshot)
    | TotalExpenses(user: Snapshot)
    | Sip
    | SipVsLumpSum
    | LowRiskPortfolio
    | MutualFundSimple
    | MutualFund
    | FinView
    | TaxPlanning
    | EmiPlanning
    | SavingsOptimization
    | Fallback
  {
    predicate Personal() {
      Spending? || Balance? || TotalExpenses?
    }
  }

  /** The table that turns a spoken category into a snapshot key. */
  const CATEGORY_ALIASES: map<string, string> := map[
    "food" := "Food & Dining",
    "food and dining" := "Food & Dining",
    "transportation" := "Transportation",
    "entertainment" := "Entertainment",
    "shopping" := "Shopping",
    "housing" := "Housing",
    "healthcare" := "Healthcare",
    "education" := "Education",
    "bills" := "Bills & Utilities",
    "utilities" := "Bills & Utilities"]

  /** `categoryMap[category.toLowerCase()] || category`. */
  function MapCategory(category: string): string {
    var key := Lower(category);
    if key in CATEGORY_ALIASES then CATEGORY_ALIASES[key] else category
  }

  /** The category the spending rule asks about, when the pattern matches. */
  function SpendingCategory(message: string): (r: Option<string>)
    ensures r.Some? <==> Capture(message).Some?
  {
    match Capture(message)
    case None => None
    case Some(c) => Some(MapCategory(Trim(c)))
  }

  /** The rules inside `if (userData)`, tried in order. */
  function PersonalRule(message: string, u: Snapshot): (r: Option<Rule>)
    ensures r.Some? ==> r.value.Personal() && r.value.user == u
  {
    if Contains(message, "how much did i spend on") && Contains(message, "this month")
       && SpendingCategory(message).Some? then
      Some(Spending(u, SpendingCategory(message).value))
    else if Contains(message, "balance") && (Contains(message, "low") || Contains(message, "why")) then
      Some(Balance(u))
    else if Contains(message, "total expense") || Contains(message, "total spending") then
      Some(TotalExpenses(u))
    else
      None
  }

  /** The rules tried whether or not a user is known. */
  function KeywordRule(message: string): (r: Rule)
    ensures !r.Personal()
  {
    if Contains(message, "sip") || Contains(message, "systematic") then Sip
    else if Contains(message, "should i start sip") || Contains(message, "lump sum") then SipVsLumpSum
    else if Contains(message, "portfolio") && Contains(message, "low risk") then LowRiskPortfolio
    else if Contains(message, "mutual fund") || Contains(message, "mf") then
      if Contains(message, "like") && (Contains(message, "15") || Contains(message, "teen")) then MutualFundSimple
      else MutualFund
    else if Contains(message, "what is finview") || Contains(message, "budget tracker") then FinView
    else if Contains(message, "tax planning") then TaxPlanning
    else if Contains(message, "emi planning") then EmiPlanning
    else if Contains(message, "savings optimization") then SavingsOptimization
    else Fallback
  }

  /** The rule that answers a lower-cased message. A personal rule answers
      only when a snapshot is present, and then it is that snapshot's. */
  function Classify(message: string, userData: Option<Snapshot>): (r: Rule)
    ensures r.Personal() ==> userData.Some? && r.user == userData.value
    ensures userData.None? ==> r == KeywordRule(message)
  {
    if userData.Some? && PersonalRule(message, userData.value).Some? then
      PersonalRule(message, userData.value).value
    else
      KeywordRule(message)
  }

  const RUPEE := "\U{20B9}"
  const BULLET := "\U{2022} "

  const SIP_TEMPLATE := Template(
    "SIP is an excellent strategy for disciplined investing.",
    "SIP helps with rupee-cost averaging, removing the need to time the market. Even " + RUPEE
      + "500/month can grow significantly over time through the power of compounding.",
    [BULLET + "Start with an amount you can consistently invest monthly",
     BULLET + "Choose funds based on your risk tolerance and investment horizon"])

  const SIP_VS_LUMP_SUM_TEMPLATE := Template(
    "Both SIP and lump sum have their advantages depending on market conditions.",
    "SIP reduces timing risk and is better for volatile markets. Lump sum can be beneficial in consistently rising markets or when you have a large amount to invest.",
    [BULLET + "Use SIP for regular income and market volatility",
     BULLET + "Consider lump sum for bonus amounts or windfalls"])

  const LOW_RISK_PORTFOLIO_TEMPLATE := Template(
    "For low-risk investors, focus on capital preservation with moderate growth.",
    "A conservative portfolio typically includes 70-80% in debt instruments (bonds, FDs) and 20-30% in large-cap equities or balanced funds.",
    [BULLET + "Allocate 40% to debt mutual funds and government bonds",
     BULLET + "Keep 30% in fixed deposits and 30% in large-cap index funds"])

  const MUTUAL_FUND_SIMPLE_TEMPLATE := Template(
    "Mutual funds are like a team effort for your money!",
    "Imagine you and your friends pool money together to buy different toys. A mutual fund works similarly - many people put money together to buy different stocks and bonds. A professional manager decides what to buy, so you don't have to pick individual stocks yourself. It's like having an expert shop for you!",
    [BULLET + "Start with small amounts to learn how they work",
     BULLET + "Choose funds that match your goals",
     BULLET + "Be patient - investing is a long-term game"])

  const MUTUAL_FUND_TEMPLATE := Template(
    "Mutual funds are excellent for diversification!",
    "For beginners, I recommend starting with index funds or balanced funds. They offer professional management and instant diversification. Select your risk tolerance on the right, and I'll show you specific mutual fund recommendations tailored to your profile.",
    [BULLET + "Start with index funds for broad market exposure",
     BULLET + "Consider balanced funds for moderate risk",
     BULLET + "Check expense ratios before investing"])

  const FINVIEW_TEMPLATE := Template(
    "FinView is a comprehensive financial management platform.",
    "FinView helps you track income and expenses, analyze spending patterns, set budgets, and get AI-powered investment advice. It provides insights into your financial health and helps you make better money decisions.",
    [BULLET + "Use the Budget Tracker to monitor daily expenses",
     BULLET + "Check Investment Analytics for portfolio performance"])

  const TAX_PLANNING_TEMPLATE := Template(
    "Tax planning helps reduce your tax liability legally.",
    "Under Section 80C, you can save up to " + RUPEE
      + "1.5 lakhs through ELSS, PPF, life insurance, etc. Section 80D provides deductions for health insurance premiums.",
    [BULLET + "Consider ELSS mutual funds for tax saving with growth potential",
     BULLET + "Maximize 80C limit with a mix of PPF, ELSS, and life insurance"])

  const EMI_PLANNING_TEMPLATE := Template(
    "EMI planning ensures your loan repayments don't strain your finances.",
    "The 50-30-20 rule suggests keeping total EMIs under 50% of monthly income. Consider the loan tenure, interest rate, and your monthly budget before taking new loans.",
    [BULLET + "Keep total EMIs below 40% of monthly income",
     BULLET + "Consider prepaying high-interest loans when possible"])

  const SAVINGS_OPTIMIZATION_TEMPLATE := Template(
    "Optimize savings by balancing liquidity, returns, and risk.",
    "Maintain an emergency fund (6-12 months expenses) in liquid instruments. Invest surplus in higher-return instruments based on your time horizon and risk tolerance.",
    [BULLET + "Keep 3-6 months expenses in high-yield savings accounts",
     BULLET + "Invest remaining surplus in diversified mutual funds"])

  const DEFAULT_TEMPLATE := Template(
    "I'm here to help with your financial questions!",
    "I can assist with investment advice, budget planning, tax optimization, and portfolio management. Feel free to ask about specific financial topics or your personal finances.",
    [BULLET + "Ask about specific investment options or market trends",
     BULLET + "Inquire about optimizing your budget and savings"])

  /** The sentence of the spending rule's summary. */
  function SpentSentence(show: int -> string, amount: int, category: string): string {
    "You spent " + RUPEE + show(amount) + " on " + category + " this month."
  }

  /** The spending rule's template for an amount in a category. */
  function SpendingTemplate(u: Snapshot, category: string, show: int -> string): Template {
    var amount := CategoryAmount(u, category);
    Template(
      SpentSentence(show, amount, category),
      "This represents " + Fixed1Text(PercentOf(amount, MonthlyTotal(u))) + "% of your total monthly expenses.",
      [BULLET + "Compare this to previous months to identify spending trends",
       BULLET + "Set a monthly budget limit for this category if needed"])
  }

  /** The balance rule's template. */
  function BalanceTemplate(u: Snapshot, show: int -> string): Template {
    Template(
      "Your current balance is " + RUPEE + show(u.balance) + ".",
      "With total monthly expenses of " + RUPEE + show(MonthlyTotal(u)) + " against income of " + RUPEE
        + show(u.totalIncome) + ", you have a savings rate of "
        + Fixed1Text(PercentOf(u.totalIncome - MonthlyTotal(u), u.totalIncome)) + "%.",
      [BULLET + "Consider reducing discretionary spending in high-expense categories",
       BULLET + "Look for ways to increase income or optimize recurring expenses"])
  }

  /** The total-expense rule's template, given the "Food & Dining" amount. */
  function TotalExpensesTemplate(u: Snapshot, food: int, show: int -> string): Template {
    Template(
      "Your total expenses this month are " + RUPEE + show(MonthlyTotal(u)) + ".",
      "Your highest expense category is Food & Dining at " + RUPEE + show(food) + ".",
      [BULLET + "Track this monthly to identify spending patterns",
       BULLET + "Set budget alerts for categories where you want to reduce spending"])
  }

  /** The template a rule produces. `show` stands for `toLocaleString`. Only
      the total-expense rule can fail: it reads the "Food & Dining" amount
      without a default. */
  function Render(rule: Rule, show: int -> string): (r: Result<Template, JsError>)
    ensures r.Failure? <==> rule.TotalExpenses? && "Food & Dining" !in Names(rule.user.categories)
  {
    match rule
    case Spending(u, c) => Success(SpendingTemplate(u, c, show))
    case Balance(u) => Success(BalanceTemplate(u, show))
    case TotalExpenses(u) =>
      var food := Lookup(u.categories, "Food & Dining");
      if food.None? then Failure(TypeError) else Success(TotalExpensesTemplate(u, food.value, show))
    case Sip => Success(SIP_TEMPLATE)
    case SipVsLumpSum => Success(SIP_VS_LUMP_SUM_TEMPLATE)
    case LowRiskPortfolio => Success(LOW_RISK_PORTFOLIO_TEMPLATE)
    case MutualFundSimple => Success(MUTUAL_FUND_SIMPLE_TEMPLATE)
    case MutualFund => Success(MUTUAL_FUND_TEMPLATE)
    case FinView => Success(FINVIEW_TEMPLATE)
    case TaxPlanning => Success(TAX_PLANNING_TEMPLATE)
    case EmiPlanning => Success(EMI_PLANNING_TEMPLATE)
    case SavingsOptimization => Success(SAVINGS_OPTIMIZATION_TEMPLATE)
    case Fallback => Success(DEFAULT_TEMPLATE)
  }

  /** `generateAIResponse(userMessage, userId)`. A caller with no known
      user id is never answered with an error. */
  function GenerateResponse(users: map<string, Snapshot>, show: int -> string, userMessage: string,
                            userId: Option<string>): (r: Result<Template, JsError>)
    ensures r.Failure? ==> Resolve(users, userId).Some?
  {
    Render(Classify(Lower(userMessage), Resolve(users, userId)), show)
  }
}
