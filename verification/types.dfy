/** The entities of the finance dashboard (types.ts), with the open string
    unions of the source turned into closed enumerations.

    Amounts are whole rupees (`int`), calendar dates are day numbers, and an
    optional field is an `Option`. */
module Types {

  datatype Option<+T> = None | Some(value: T)

  /** `Transaction.category`: exactly nine names. */
  datatype Category =
    | Food | Transport | Shopping | Bills | Entertainment | Health | Salary | Transfer | Other

  /** `Transaction.type`. */
  datatype TxType = Debit | Credit

  /** `Transaction.method`. */
  datatype PayMethod = UPI | Card | BankTransfer | Crypto

  /** `Transaction.blockStatus`. */
  datatype BlockStatus = Pending | Verified

  datatype Transaction = Transaction(
    id: string,
    date: int,
    merchant: string,
    amount: int,
    category: Category,
    txType: TxType,
    payMethod: PayMethod,
    txHash: Option<string>,
    blockStatus: Option<BlockStatus>)

  datatype Bill = Bill(id: string, name: string, amount: int, dueDate: int, isPaid: bool)

  /** `apy` is a decorative yield percentage and stays a real number. */
  datatype Goal = Goal(
    id: string,
    name: string,
    targetAmount: int,
    currentAmount: int,
    deadline: int,
    smartContractAddress: Option<string>,
    apy: Option<real>)

  /** The single ledger record of a session. `walletAddress` is `None` both
      for an absent and for a `null` address; `budgets` is keyed by free-form
      names, not by `Category`. */
  datatype UserContext = UserContext(
    monthlyIncome: int,
    currentBalance: int,
    vaultBalance: int,
    transactions: seq<Transaction>,
    bills: seq<Bill>,
    goals: seq<Goal>,
    walletAddress: Option<string>,
    finTokens: int,
    budgets: map<string, int>)

  /** The text the source uses for a category. */
  function CategoryName(c: Category): string
  {
    match c
    case Food => "Food"
    case Transport => "Transport"
    case Shopping => "Shopping"
    case Bills => "Bills"
    case Entertainment => "Entertainment"
    case Health => "Health"
    case Salary => "Salary"
    case Transfer => "Transfer"
    case Other => "Other"
  }

  /** Distinct categories have distinct names, so a dictionary keyed by
      `CategoryName` is keyed by category. */
  lemma CategoryNameInjective(a: Category, b: Category)
    requires CategoryName(a) == CategoryName(b)
    ensures a == b
  {
  }

  /** `a` is `b` with some elements left out, order kept: what a `filter`
      leaves of its input. */
  predicate Subsequence<T(==)>(a: seq<T>, b: seq<T>)
    decreases |b|
  {
    a == [] || (b != [] && ((a[0] == b[0] && Subsequence(a[1..], b[1..])) || Subsequence(a, b[1..])))
  }
}
