/**
 * The portfolio ledger of backend/app/main.py over the tables of
 * backend/app/models.py.
 *
 * The database holds the users, the category catalogue, one balance per
 * (user id, category id) pair (the composite primary key of Portfolios) and
 * the log of transactions with signed amounts. Each route handler validates
 * its request in a fixed order and then changes a balance and the log
 * together, as one atomic step.
 */
module Ledger {
  import opened Wrappers

  datatype User = User(id: nat, firebaseUid: string, email: string, username: string, riskProfile: string)
  datatype Category = Category(id: nat, name: string, subCategory: string)
  datatype Transaction = Transaction(id: nat, userId: nat, categoryId: nat, amount: int)

  /** Balances keyed by (user id, category id): at most one row per pair. */
  type Portfolios = map<(nat, nat), int>

  /** The refusals of the ledger routes; each leaves the database unchanged. */
  datatype Failure =
    | UserNotFound          // "Utilisateur non trouvé. Veuillez vous reconnecter."
    | NotJson               // "Content-Type must be application/json"
    | InvalidAmount         // "Montant invalide"
    | NonPositiveAmount     // "Le montant doit être supérieur à zéro"
    | MissingCategory       // "La catégorie et la sous-catégorie sont requises"
    | InvalidWithdrawal     // "Entrée invalide. Veuillez réessayer"
    | UnknownCombination    // "Cette combinaison de catégorie et de sous-catégorie n'existe pas"
    | InsufficientBalance   // "Solde insuffisant pour effectuer ce retrait"
    | MissingEntryId        // "Identifiant d'entrée requis"
    | TransactionNotFound   // "Transaction introuvable ou vous n'avez pas l'autorisation de la supprimer"
    | PortfolioNotFound     // "Entrée de portefeuille introuvable"
    | MissingRiskProfile    // "Profil de risque requis"
    | InvalidRiskProfile    // "Profil de risque invalide"
  {
    /** The HTTP status the route answers with. */
    function Status(): (s: nat)
      ensures s == 404 <==> this in {UserNotFound, TransactionNotFound, PortfolioNotFound}
      ensures s == 400 <==> this !in {UserNotFound, TransactionNotFound, PortfolioNotFound}
    {
      match this
      case UserNotFound => 404
      case TransactionNotFound => 404
      case PortfolioNotFound => 404
      case _ => 400
    }
  }

  datatype Reply = Success(status: nat) | Refused(failure: Failure)

  /** The JSON body of `invest` and `withdraw`; a missing or empty name is "". `None` is an amount `float()` rejects. */
  datatype MoneyRequest = MoneyRequest(isJson: bool, categoryName: string, subCategory: string, amount: Option<int>)

  /** The outcome of validating a money request: the category it names and the amount. */
  datatype Verdict = Reject(failure: Failure) | Accept(categoryId: nat, amount: int)

  // ------------------------------------------------------------- lookups

  /** `Users.query.filter_by(firebase_uid=uid).first()` */
  function FindUser(users: seq<User>, uid: string): (r: Option<User>)
    ensures r.Some? ==> r.value in users && r.value.firebaseUid == uid
    ensures r.None? ==> forall u :: u in users ==> u.firebaseUid != uid
  {
    if users == [] then None
    else if users[0].firebaseUid == uid then Some(users[0])
    else FindUser(users[1..], uid)
  }

  /** `Categories.query.filter_by(category_name=name, sub_category=sub).first()` */
  function FindCategory(catalogue: seq<Category>, name: string, sub: string): (r: Option<Category>)
    ensures r.Some? ==> r.value in catalogue && r.value.name == name && r.value.subCategory == sub
    ensures r.None? ==> forall c :: c in catalogue ==> !(c.name == name && c.subCategory == sub)
  {
    if catalogue == [] then None
    else if catalogue[0].name == name && catalogue[0].subCategory == sub then Some(catalogue[0])
    else FindCategory(catalogue[1..], name, sub)
  }

  /** `Transactions.query.filter_by(id=entryId, user_id=userId).first()`, as a position in the log. */
  function FindTransaction(log: seq<Transaction>, entryId: int, userId: nat): (r: Option<nat>)
    ensures r.Some? ==> r.value < |log| && log[r.value].id == entryId && log[r.value].userId == userId
    ensures r.None? ==> forall i :: 0 <= i < |log| ==> !(log[i].id == entryId && log[i].userId == userId)
  {
    if log == [] then None
    else if log[0].id == entryId && log[0].userId == userId then Some(0)
    else match FindTransaction(log[1..], entryId, userId)
      case Some(i) => Some(i + 1)
      case None => None
  }

  // ------------------------------------------------------------ balances

  /** The balance of a pair; a missing row reads as the column default 0. */
  function Balance(p: Portfolios, userId: nat, categoryId: nat): int {
    if (userId, categoryId) in p then p[(userId, categoryId)] else 0
  }

  /** Sum of the logged amounts of one user in one category. */
  function PairSum(log: seq<Transaction>, userId: nat, categoryId: nat): int {
    if log == [] then 0
    else
      var t := log[|log| - 1];
      PairSum(log[..|log| - 1], userId, categoryId) + (if t.userId == userId && t.categoryId == categoryId then t.amount else 0)
  }

  /** The ledger invariant: every balance is the sum of the logged amounts of its pair. */
  ghost predicate Consistent(p: Portfolios, log: seq<Transaction>) {
    forall u: nat, c: nat :: Balance(p, u, c) == PairSum(log, u, c)
  }

  /** Every logged transaction has a balance row for its pair. */
  ghost predicate RowsCoverLog(p: Portfolios, log: seq<Transaction>) {
    forall t :: t in log ==> (t.userId, t.categoryId) in p
  }

  lemma {:induction false} PairSumAppend(a: seq<Transaction>, b: seq<Transaction>, u: nat, c: nat)
    ensures PairSum(a + b, u, c) == PairSum(a, u, c) + PairSum(b, u, c)
  {
    if b == [] {
      assert a + b == a;
    } else {
      assert (a + b)[..|a + b| - 1] == a + b[..|b| - 1];
      PairSumAppend(a, b[..|b| - 1], u, c);
    }
  }

  /** Contribution of one transaction to the sum of a pair. */
  function Share(t: Transaction, u: nat, c: nat): int {
    if t.userId == u && t.categoryId == c then t.amount else 0
  }

  lemma PairSumRemove(log: seq<Transaction>, i: nat, u: nat, c: nat)
    requires i < |log|
    ensures PairSum(log[..i] + log[i + 1..], u, c) == PairSum(log, u, c) - Share(log[i], u, c)
  {
    assert log == log[..i] + [log[i]] + log[i + 1..];
    PairSumAppend(log[..i] + [log[i]], log[i + 1..], u, c);
    PairSumAppend(log[..i], [log[i]], u, c);
    PairSumAppend(log[..i], log[i + 1..], u, c);
    assert [log[i]][..0] == [];
  }

  /**
   * Changing the balance of one pair by `x` keeps the ledger consistent
   * exactly when the log's sum for that pair changes by `x` and no other sum
   * changes.
   */
  lemma AdjustConsistent(p: Portfolios, log: seq<Transaction>, log': seq<Transaction>, u: nat, c: nat, x: int)
    requires Consistent(p, log)
    requires forall u': nat, c': nat :: PairSum(log', u', c') == PairSum(log, u', c') + (if u' == u && c' == c then x else 0)
    ensures Consistent(p[(u, c) := Balance(p, u, c) + x], log')
  {
    var p' := p[(u, c) := Balance(p, u, c) + x];
    forall u': nat, c': nat ensures Balance(p', u', c') == PairSum(log', u', c') {
      assert Balance(p, u', c') == PairSum(log, u', c');
    }
  }

  /** Logging `t` and adding its amount to its pair's balance keeps both invariants. */
  lemma LogPreserves(p: Portfolios, log: seq<Transaction>, t: Transaction)
    requires Consistent(p, log) && RowsCoverLog(p, log)
    ensures Consistent(p[(t.userId, t.categoryId) := Balance(p, t.userId, t.categoryId) + t.amount], log + [t])
    ensures RowsCoverLog(p[(t.userId, t.categoryId) := Balance(p, t.userId, t.categoryId) + t.amount], log + [t])
  {
    forall u': nat, c': nat
      ensures PairSum(log + [t], u', c') == PairSum(log, u', c') + (if u' == t.userId && c' == t.categoryId then t.amount else 0)
    {
      assert (log + [t])[..|log + [t]| - 1] == log;
    }
    AdjustConsistent(p, log, log + [t], t.userId, t.categoryId, t.amount);
  }

  /** Deleting the transaction at `i` and subtracting its amount from its pair keeps both invariants. */
  lemma RemovePreserves(p: Portfolios, log: seq<Transaction>, i: nat)
    requires i < |log| && Consistent(p, log) && RowsCoverLog(p, log)
    ensures var t := log[i];
      Consistent(p[(t.userId, t.categoryId) := Balance(p, t.userId, t.categoryId) - t.amount], log[..i] + log[i + 1..])
    ensures var t := log[i];
      RowsCoverLog(p[(t.userId, t.categoryId) := Balance(p, t.userId, t.categoryId) - t.amount], log[..i] + log[i + 1..])
  {
    var t := log[i];
    forall u': nat, c': nat
      ensures PairSum(log[..i] + log[i + 1..], u', c') == PairSum(log, u', c') + (if u' == t.userId && c' == t.categoryId then -t.amount else 0)
    {
      PairSumRemove(log, i, u', c');
    }
    AdjustConsistent(p, log, log[..i] + log[i + 1..], t.userId, t.categoryId, -t.amount);
    forall s | s in log[..i] + log[i + 1..] ensures s in log {
      assert s in log[..i] || s in log[i + 1..];
    }
  }

  /**
   * Logging a transaction and then deleting it restores the log and the
   * balance; a row created for it stays behind with balance 0.
   */
  lemma DeleteUndoesLog(p: Portfolios, log: seq<Transaction>, t: Transaction)
    ensures var log' := log + [t];
      var p' := p[(t.userId, t.categoryId) := Balance(p, t.userId, t.categoryId) + t.amount];
      log'[..|log|] + log'[|log| + 1..] == log &&
      Balance(p'[(t.userId, t.categoryId) := Balance(p', t.userId, t.categoryId) - t.amount], t.userId, t.categoryId) ==
        Balance(p, t.userId, t.categoryId)
  {
    var log' := log + [t];
    assert log'[..|log|] == log && log'[|log| + 1..] == [];
  }

  /** Under the invariants the "portfolio entry not found" branch of `delete_entry` never fires. */
  lemma OwnedEntryHasRow(p: Portfolios, log: seq<Transaction>, i: nat)
    requires RowsCoverLog(p, log) && i < |log|
    ensures (log[i].userId, log[i].categoryId) in p
  {
    assert log[i] in log;
  }

  // --------------------------------------------------------- the checks

  /**
   * The checks of `invest` (backend/app/main.py:234-281), in their order:
   * user, JSON body, amount parse, amount positive, category fields present,
   * combination known.
   */
  function InvestCheck(known: bool, r: MoneyRequest, catalogue: seq<Category>): (v: Verdict)
    ensures v.Accept? <==> (known && r.isJson && r.amount.Some? && r.amount.value > 0 &&
      r.categoryName != "" && r.subCategory != "" && FindCategory(catalogue, r.categoryName, r.subCategory).Some?)
    ensures v.Accept? ==> (v.amount == r.amount.value && v.amount > 0 &&
      v.categoryId == FindCategory(catalogue, r.categoryName, r.subCategory).value.id)
    ensures v == Reject(InvalidAmount) <==> known && r.isJson && r.amount.None?
    ensures v == Reject(NonPositiveAmount) <==> known && r.isJson && r.amount.Some? && r.amount.value <= 0
    ensures v == Reject(MissingCategory) <==> (known && r.isJson && r.amount.Some? && r.amount.value > 0 &&
      (r.categoryName == "" || r.subCategory == ""))
    ensures v == Reject(UserNotFound) <==> !known
    ensures v == Reject(NotJson) <==> known && !r.isJson
    ensures v == Reject(UnknownCombination) <==> (known && r.isJson && r.amount.Some? && r.amount.value > 0 &&
      r.categoryName != "" && r.subCategory != "" && FindCategory(catalogue, r.categoryName, r.subCategory).None?)
    ensures v.Reject? ==> v.failure in {UserNotFound, NotJson, InvalidAmount, NonPositiveAmount, MissingCategory, UnknownCombination}
  {
    if !known then Reject(UserNotFound)
    else if !r.isJson then Reject(NotJson)
    else if r.amount.None? then Reject(InvalidAmount)
    else if r.amount.value <= 0 then Reject(NonPositiveAmount)
    else if r.categoryName == "" || r.subCategory == "" then Reject(MissingCategory)
    else match FindCategory(catalogue, r.categoryName, r.subCategory)
      case None => Reject(UnknownCombination)
      case Some(c) => Accept(c.id, r.amount.value)
  }

  /**
   * The checks of `withdraw` (backend/app/main.py:350-406): the category
   * fields and the sign of the amount are checked together, after the
   * parse; then the combination; then a missing row or a balance below the
   * amount is refused, so the whole balance may be withdrawn.
   */
  function WithdrawCheck(known: bool, r: MoneyRequest, catalogue: seq<Category>, p: Portfolios, userId: nat): (v: Verdict)
    ensures v == Reject(UserNotFound) <==> !known
    ensures v == Reject(NotJson) <==> known && !r.isJson
    ensures v.Accept? ==> known && r.isJson
    ensures v.Accept? <==> (known && r.isJson && r.amount.Some? && r.amount.value > 0 &&
      r.categoryName != "" && r.subCategory != "" && FindCategory(catalogue, r.categoryName, r.subCategory).Some? &&
      (userId, FindCategory(catalogue, r.categoryName, r.subCategory).value.id) in p &&
      p[(userId, FindCategory(catalogue, r.categoryName, r.subCategory).value.id)] >= r.amount.value)
    ensures v.Accept? ==> (v.amount == r.amount.GetOr(0) && 0 < v.amount <= Balance(p, userId, v.categoryId) &&
      (userId, v.categoryId) in p)
    ensures v.Accept? ==> v.categoryId == FindCategory(catalogue, r.categoryName, r.subCategory).value.id
    ensures v == Reject(InvalidAmount) <==> known && r.isJson && r.amount.None?
    ensures v == Reject(InvalidWithdrawal) <==> (known && r.isJson && r.amount.Some? &&
      (r.categoryName == "" || r.subCategory == "" || r.amount.value <= 0))
    ensures known && r.isJson && r.amount.Some? && r.amount.value > 0 && r.categoryName != "" && r.subCategory != "" ==>
      match FindCategory(catalogue, r.categoryName, r.subCategory)
      case None => v == Reject(UnknownCombination)
      case Some(c) =>
        if (userId, c.id) in p && p[(userId, c.id)] >= r.amount.value then v == Accept(c.id, r.amount.value)
        else v == Reject(InsufficientBalance)
  {
    if !known then Reject(UserNotFound)
    else if !r.isJson then Reject(NotJson)
    else if r.amount.None? then Reject(InvalidAmount)
    else if r.categoryName == "" || r.subCategory == "" || r.amount.value <= 0 then Reject(InvalidWithdrawal)
    else match FindCategory(catalogue, r.categoryName, r.subCategory)
      case None => Reject(UnknownCombination)
      case Some(c) =>
        if (userId, c.id) !in p || p[(userId, c.id)] < r.amount.value then Reject(InsufficientBalance)
        else Accept(c.id, r.amount.value)
  }

  /** The amount is judged before the category in `invest`, whatever the category fields hold. */
  lemma InvestAmountFirst(known: bool, r: MoneyRequest, name: string, sub: string, catalogue: seq<Category>, other: seq<Category>)
    requires r.amount.None? || r.amount.value <= 0
    ensures InvestCheck(known, r, catalogue) == InvestCheck(known, r.(categoryName := name, subCategory := sub), other)
  {
  }

  /** Withdrawing exactly the balance of an existing row is accepted. */
  lemma WithdrawWholeBalance(r: MoneyRequest, catalogue: seq<Category>, p: Portfolios, userId: nat, c: Category)
    requires r.isJson && r.categoryName != "" && r.subCategory != ""
    requires FindCategory(catalogue, r.categoryName, r.subCategory) == Some(c)
    requires (userId, c.id) in p && p[(userId, c.id)] > 0 && r.amount == Some(p[(userId, c.id)])
    ensures WithdrawCheck(true, r, catalogue, p, userId) == Accept(c.id, p[(userId, c.id)])
  {
  }

  /** The request of `delete_entry`; `None` is a missing `entry_id`. */
  datatype DeleteVerdict = DeleteRejected(failure: Failure) | DeleteAccepted(index: nat)

  /**
   * The checks of `delete_entry` (backend/app/main.py:557-597): user, JSON
   * body, a truthy `entry_id`, a transaction with that id owned by the
   * caller, and its balance row.
   */
  function DeleteCheck(known: bool, isJson: bool, entryId: Option<int>, log: seq<Transaction>, p: Portfolios, userId: nat): (v: DeleteVerdict)
    ensures v == DeleteRejected(UserNotFound) <==> !known
    ensures v == DeleteRejected(NotJson) <==> known && !isJson
    ensures v.DeleteAccepted? <==> (known && isJson && entryId.Some? && entryId.value != 0 &&
      FindTransaction(log, entryId.value, userId).Some? &&
      (userId, log[FindTransaction(log, entryId.value, userId).value].categoryId) in p)
    ensures v.DeleteAccepted? ==> Some(v.index) == FindTransaction(log, entryId.value, userId)
    ensures v.DeleteAccepted? ==> (v.index < |log| && log[v.index].userId == userId &&
      Some(log[v.index].id as int) == entryId && (userId, log[v.index].categoryId) in p)
    ensures v == DeleteRejected(MissingEntryId) <==> known && isJson && (entryId.None? || entryId == Some(0))
    ensures v == DeleteRejected(TransactionNotFound) <==> (known && isJson && entryId.Some? && entryId.value != 0 &&
      forall i :: 0 <= i < |log| ==> !(log[i].id == entryId.value && log[i].userId == userId))
    ensures v == DeleteRejected(PortfolioNotFound) <==> (known && isJson && entryId.Some? && entryId.value != 0 &&
      FindTransaction(log, entryId.value, userId).Some? &&
      (userId, log[FindTransaction(log, entryId.value, userId).value].categoryId) !in p)
    ensures v == DeleteRejected(PortfolioNotFound) ==> !RowsCoverLog(p, log)
  {
    if !known then DeleteRejected(UserNotFound)
    else if !isJson then DeleteRejected(NotJson)
    else if entryId.None? || entryId.value == 0 then DeleteRejected(MissingEntryId)
    else match FindTransaction(log, entryId.value, userId)
      case None => DeleteRejected(TransactionNotFound)
      case Some(i) =>
        if (userId, log[i].categoryId) !in p then
          assert log[i] in log;
          DeleteRejected(PortfolioNotFound)
        else DeleteAccepted(i)
  }

  /**
   * `delete_entry` has no lower bound: deleting a deposit after its
   * withdrawal leaves a negative balance.
   */
  lemma DeleteCanGoNegative()
    ensures var log := [Transaction(1, 7, 3, 10), Transaction(2, 7, 3, -10)];
      var p: Portfolios := map[(7, 3) := 0];
      DeleteCheck(true, true, Some(1), log, p, 7) == DeleteAccepted(0) &&
      Balance(p[(7, 3) := p[(7, 3)] - log[0].amount], 7, 3) == -10
  {
  }

  // ----------------------------------------------------- risk profile

  const RiskProfiles: seq<string> := ["prudent", "équilibré", "dynamique"]
  const DefaultRiskProfile := "équilibré"

  /** Python's `str.lower` on ASCII and Latin-1 letters (other characters are kept). */
  function LowerChar(ch: char): (r: char)
    ensures 'A' <= ch <= 'Z' ==> r as int == ch as int + 32
    ensures !('A' <= ch <= 'Z') && !('À' <= ch <= 'Þ' && ch != '×') ==> r == ch
  {
    if 'A' <= ch <= 'Z' || ('À' <= ch <= 'Þ' && ch != '×') then (ch as int + 32) as char else ch
  }

  function Lower(s: string): (r: string)
    ensures |r| == |s| && forall i :: 0 <= i < |s| ==> r[i] == LowerChar(s[i])
  {
    if s == [] then [] else [LowerChar(s[0])] + Lower(s[1..])
  }

  datatype RiskVerdict = RiskRejected(failure: Failure) | RiskAccepted(stored: string)

  /**
   * The checks of `update_risk_profile` (backend/app/main.py:100-127): the
   * body, a non-empty profile, the whitelist compared case-insensitively,
   * and only then the user; the lowercased value is what is stored.
   */
  function RiskProfileCheck(isJson: bool, profile: string, known: bool): (v: RiskVerdict)
    ensures v.RiskAccepted? <==> isJson && profile != "" && Lower(profile) in RiskProfiles && known
    ensures v.RiskAccepted? ==> v.stored in RiskProfiles && v.stored == Lower(profile)
    ensures v == RiskRejected(InvalidRiskProfile) <==> isJson && profile != "" && Lower(profile) !in RiskProfiles
    ensures v == RiskRejected(NotJson) <==> !isJson
    ensures v == RiskRejected(MissingRiskProfile) <==> isJson && profile == ""
    ensures v == RiskRejected(UserNotFound) <==> isJson && profile != "" && Lower(profile) in RiskProfiles && !known
    ensures v.RiskRejected? ==> v.failure in {NotJson, MissingRiskProfile, InvalidRiskProfile, UserNotFound}
  {
    if !isJson then RiskRejected(NotJson)
    else if profile == "" then RiskRejected(MissingRiskProfile)
    else if Lower(profile) !in RiskProfiles then RiskRejected(InvalidRiskProfile)
    else if !known then RiskRejected(UserNotFound)
    else RiskAccepted(Lower(profile))
  }

  /** A capitalised spelling is accepted and stored lowercased. */
  lemma RiskProfileCapitalised()
    ensures RiskProfileCheck(true, "Prudent", true) == RiskAccepted("prudent")
  {
    var l := Lower("Prudent");
    forall i | 0 <= i < 7 ensures l[i] == "prudent"[i] {
    }
    assert l == "prudent";
  }

  /** Accents are lowercased too. */
  lemma RiskProfileAccented()
    ensures RiskProfileCheck(true, "ÉQUILIBRÉ", true) == RiskAccepted("équilibré")
  {
    var l := Lower("ÉQUILIBRÉ");
    forall i | 0 <= i < 9 ensures l[i] == "équilibré"[i] {
    }
    assert l == "équilibré";
  }

  // ----------------------------------------------------------- history

  /** `min(request.args.get('per_page', 10, type=int), 100)`; `None` is a missing or non-integer argument. */
  function PerPage(arg: Option<int>): (n: int)
    ensures n <= 100
    ensures arg.None? ==> n == 10
    ensures arg.Some? ==> n == if arg.value < 100 then arg.value else 100
  {
    if arg.Some? && arg.value < 100 then arg.value else if arg.Some? then 100 else 10
  }

  datatype PageMeta = PageMeta(page: int, perPage: int, total: int, pages: int, hasNext: bool, hasPrev: bool)

  /**
   * The pagination block of `view_history` (backend/app/main.py:505-542):
   * a page without items is always reported as page 1 of 0 with total 0,
   * whatever the paginator computed (even for a page past the end of a
   * non-empty history).
   */
  function HistoryMeta(itemsOnPage: nat, paginated: PageMeta): (m: PageMeta)
    ensures itemsOnPage == 0 ==> m.page == 1 && m.total == 0 && m.pages == 0 && !m.hasNext && !m.hasPrev
    ensures m.perPage == paginated.perPage
    ensures itemsOnPage > 0 ==> m == paginated
  {
    if itemsOnPage == 0 then PageMeta(1, paginated.perPage, 0, 0, false, false) else paginated
  }

  // ------------------------------------------------------------ users

  /** `email.split('@')[0]`: the part of the address before its first '@'. */
  function EmailPrefix(email: string): (r: string)
    ensures '@' !in r && r <= email
    ensures |r| < |email| ==> email[|r|] == '@'
  {
    if email == [] || email[0] == '@' then [] else [email[0]] + EmailPrefix(email[1..])
  }

  /** `name or email.split('@')[0]` */
  function NewUsername(email: string, name: Option<string>): (r: string)
    ensures name.Some? && name.value != "" ==> r == name.value
    ensures name.None? || name.value == "" ==> r == EmailPrefix(email)
  {
    if name.Some? && name.value != "" then name.value else EmailPrefix(email)
  }

  /** The unique email and username columns leave room for a new row. */
  predicate Insertable(users: seq<User>, email: string, username: string) {
    forall u :: u in users ==> u.email != email && u.username != username
  }

  datatype SyncResult = SyncResult(users: seq<User>, nextUserId: nat, user: Option<User>)

  /**
   * `Users.get_or_create_user` (backend/app/models.py:21-33): the user with
   * this firebase uid if there is one, otherwise a new row with the default
   * risk profile. A missing email or a clash on a unique column makes the
   * insert fail (`None`) and leaves the table as it was.
   */
  function GetOrCreateUser(users: seq<User>, nextUserId: nat, uid: string, email: Option<string>, name: Option<string>): (r: SyncResult)
    ensures FindUser(users, uid).Some? ==> r == SyncResult(users, nextUserId, FindUser(users, uid))
    ensures FindUser(users, uid).None? && r.user.Some? ==> (email.Some? &&
      r.user.value == User(nextUserId, uid, email.value, NewUsername(email.value, name), DefaultRiskProfile) &&
      r.users == users + [r.user.value] && r.nextUserId == nextUserId + 1)
    ensures FindUser(users, uid).None? ==>
      (r.user.Some? <==> email.Some? && Insertable(users, email.value, NewUsername(email.value, name)))
    ensures r.user.None? ==> r.users == users && r.nextUserId == nextUserId
  {
    match FindUser(users, uid)
    case Some(u) => SyncResult(users, nextUserId, Some(u))
    case None =>
      if email.Some? && Insertable(users, email.value, NewUsername(email.value, name)) then
        var u := User(nextUserId, uid, email.value, NewUsername(email.value, name), DefaultRiskProfile);
        SyncResult(users + [u], nextUserId + 1, Some(u))
      else SyncResult(users, nextUserId, None)
  }

  lemma {:induction false} FindUserAppend(users: seq<User>, u: User, uid: string)
    requires FindUser(users, uid).None?
    ensures FindUser(users + [u], uid) == if u.firebaseUid == uid then Some(u) else None
  {
    if users != [] {
      assert (users + [u])[1..] == users[1..] + [u];
      FindUserAppend(users[1..], u, uid);
    } else {
      assert [u][1..] == [];
    }
  }

  /** A second sync with the same uid returns the same user and adds no row. */
  lemma GetOrCreateIdempotent(users: seq<User>, next: nat, uid: string, email: Option<string>, name: Option<string>,
                              email': Option<string>, name': Option<string>)
    requires GetOrCreateUser(users, next, uid, email, name).user.Some?
    ensures var first := GetOrCreateUser(users, next, uid, email, name);
      GetOrCreateUser(first.users, first.nextUserId, uid, email', name') == first
  {
    var first := GetOrCreateUser(users, next, uid, email, name);
    if FindUser(users, uid).None? {
      FindUserAppend(users, first.user.value, uid);
    }
  }

  // ---------------------------------------------------------- cascade

  function UsersWithout(users: seq<User>, id: nat): (r: seq<User>)
    ensures forall u :: u in r <==> u in users && u.id != id
  {
    if users == [] then [] else (if users[0].id == id then [] else [users[0]]) + UsersWithout(users[1..], id)
  }

  function LogWithout(log: seq<Transaction>, id: nat): (r: seq<Transaction>)
    ensures forall t :: t in r <==> t in log && t.userId != id
  {
    if log == [] then []
    else LogWithout(log[..|log| - 1], id) + (if log[|log| - 1].userId == id then [] else [log[|log| - 1]])
  }

  function RowsWithout(p: Portfolios, id: nat): (r: Portfolios)
    ensures forall k :: k in r <==> k in p && k.0 != id
    ensures forall k :: k in r ==> r[k] == p[k]
  {
    map k | k in p && k.0 != id :: p[k]
  }

  lemma {:induction false} LogWithoutSum(log: seq<Transaction>, id: nat, u: nat, c: nat)
    ensures PairSum(LogWithout(log, id), u, c) == if u == id then 0 else PairSum(log, u, c)
  {
    if log != [] {
      var init, t := log[..|log| - 1], log[|log| - 1];
      LogWithoutSum(init, id, u, c);
      var rest := LogWithout(init, id);
      assert PairSum(log, u, c) == PairSum(init, u, c) + Share(t, u, c);
      if t.userId != id {
        assert LogWithout(log, id) == rest + [t];
        assert (rest + [t])[..|rest + [t]| - 1] == rest;
        assert PairSum(rest + [t], u, c) == PairSum(rest, u, c) + Share(t, u, c);
      } else {
        assert LogWithout(log, id) == rest + [];
        assert rest + [] == rest;
      }
    }
  }

  /** Deleting a user's rows and transactions together keeps both invariants. */
  lemma CascadePreserves(p: Portfolios, log: seq<Transaction>, id: nat)
    requires Consistent(p, log) && RowsCoverLog(p, log)
    ensures Consistent(RowsWithout(p, id), LogWithout(log, id))
    ensures RowsCoverLog(RowsWithout(p, id), LogWithout(log, id))
    ensures forall c: nat :: Balance(RowsWithout(p, id), id, c) == 0
  {
    forall u: nat, c: nat ensures Balance(RowsWithout(p, id), u, c) == PairSum(LogWithout(log, id), u, c) {
      LogWithoutSum(log, id, u, c);
      assert Balance(p, u, c) == PairSum(log, u, c);
    }
  }

  /** `firebase_uid` is a unique column (backend/app/models.py:7): at most one user per uid. */
  ghost predicate UniqueUids(users: seq<User>) {
    forall i, j :: 0 <= i < j < |users| ==> users[i].firebaseUid != users[j].firebaseUid
  }

  /** Get-or-create inserts only a uid the table does not hold, so uids stay unique. */
  lemma GetOrCreateKeepsUnique(users: seq<User>, nextUserId: nat, uid: string, email: Option<string>, name: Option<string>)
    requires UniqueUids(users)
    ensures UniqueUids(GetOrCreateUser(users, nextUserId, uid, email, name).users)
  {
    var r := GetOrCreateUser(users, nextUserId, uid, email, name);
    if r.users != users {
      forall i, j | 0 <= i < j < |r.users| ensures r.users[i].firebaseUid != r.users[j].firebaseUid {
        if j == |users| {
          assert users[i] in users;
        }
      }
    }
  }

  /** Removing users keeps the uids of the others unique. */
  lemma {:induction false} UsersWithoutKeepsUnique(users: seq<User>, id: nat)
    requires UniqueUids(users)
    ensures UniqueUids(UsersWithout(users, id))
    ensures forall u :: u in UsersWithout(users, id) ==> u in users
  {
    if users != [] {
      var t := users[1..];
      assert UniqueUids(t) by {
        forall i, j | 0 <= i < j < |t| ensures t[i].firebaseUid != t[j].firebaseUid {
          assert t[i] == users[i + 1] && t[j] == users[j + 1];
        }
      }
      UsersWithoutKeepsUnique(t, id);
      var rest := UsersWithout(t, id);
      if users[0].id != id {
        var r := [users[0]] + rest;
        forall i, j | 0 <= i < j < |r| ensures r[i].firebaseUid != r[j].firebaseUid {
          if i == 0 {
            assert r[j] in t;
            var m :| 0 <= m < |t| && t[m] == r[j];
            assert users[m + 1] == r[j];
          } else {
            assert r[i] == rest[i - 1] && r[j] == rest[j - 1];
          }
        }
      }
    }
  }

  /** `Transactions.id` is the primary key (backend/app/models.py:53): no two log rows share an id. */
  ghost predicate UniqueIds(log: seq<Transaction>) {
    forall i, j :: 0 <= i < j < |log| ==> log[i].id != log[j].id
  }

  /** A new transaction whose id exceeds every logged id keeps the ids distinct. */
  lemma AppendFreshKeepsIds(log: seq<Transaction>, t: Transaction)
    requires UniqueIds(log) && forall s :: s in log ==> s.id < t.id
    ensures UniqueIds(log + [t])
  {
    var r := log + [t];
    forall i, j | 0 <= i < j < |r| ensures r[i].id != r[j].id {
      if j == |log| {
        assert r[i] in log;
      } else {
        assert r[i] == log[i] && r[j] == log[j];
      }
    }
  }

  /** Deleting one row keeps the remaining ids distinct. */
  lemma RemoveKeepsIds(log: seq<Transaction>, i: nat)
    requires UniqueIds(log) && i < |log|
    ensures UniqueIds(log[..i] + log[i + 1..])
  {
    var r := log[..i] + log[i + 1..];
    forall a, b | 0 <= a < b < |r| ensures r[a].id != r[b].id {
      var a', b' := if a < i then a else a + 1, if b < i then b else b + 1;
      assert r[a] == log[a'] && r[b] == log[b'];
    }
  }

  /** Cascading a user's transactions away keeps the remaining ids distinct. */
  lemma {:induction false} LogWithoutKeepsIds(log: seq<Transaction>, id: nat)
    requires UniqueIds(log)
    ensures UniqueIds(LogWithout(log, id))
  {
    if log != [] {
      var init, last := log[..|log| - 1], log[|log| - 1];
      assert UniqueIds(init) by {
        forall i, j | 0 <= i < j < |init| ensures init[i].id != init[j].id {
          assert init[i] == log[i] && init[j] == log[j];
        }
      }
      LogWithoutKeepsIds(init, id);
      var rest := LogWithout(init, id);
      if last.userId != id {
        var r := rest + [last];
        forall i, j | 0 <= i < j < |r| ensures r[i].id != r[j].id {
          if j == |rest| {
            assert r[i] in init;
            var m :| 0 <= m < |init| && init[m] == r[i];
            assert log[m] == r[i];
          } else {
            assert r[i] == rest[i] && r[j] == rest[j];
          }
        }
      }
    }
  }

  /**
   * With distinct ids the lookup of `delete_entry` finds the one row with
   * that id, as the primary key lookup of backend/app/main.py:579-581 does.
   */
  lemma FindTransactionOnly(log: seq<Transaction>, entryId: int, userId: nat)
    requires UniqueIds(log) && FindTransaction(log, entryId, userId).Some?
    ensures var i := FindTransaction(log, entryId, userId).value;
      forall j :: 0 <= j < |log| && j != i ==> log[j].id != entryId
  {
    var i := FindTransaction(log, entryId, userId).value;
    forall j | 0 <= j < |log| && j != i ensures log[j].id != entryId {
      if j < i {
        assert log[j].id != log[i].id;
      } else {
        assert log[i].id != log[j].id;
      }
    }
  }

  /** The invariants of the tables: the ledger invariants, fresh and distinct transaction ids, unique uids. */
  ghost predicate Tables(users: seq<User>, p: Portfolios, log: seq<Transaction>, nextTransactionId: nat) {
    Consistent(p, log) && RowsCoverLog(p, log) &&
    (forall t :: t in log ==> t.id < nextTransactionId) && UniqueIds(log) &&
    UniqueUids(users)
  }

  /** Deleting a logged transaction and subtracting its amount from its pair keeps the table invariants. */
  lemma RemoveKeepsTables(users: seq<User>, p: Portfolios, log: seq<Transaction>, next: nat, i: nat)
    requires Tables(users, p, log, next) && i < |log|
    ensures var t := log[i];
      Tables(users, p[(t.userId, t.categoryId) := Balance(p, t.userId, t.categoryId) - t.amount], log[..i] + log[i + 1..], next)
  {
    RemovePreserves(p, log, i);
    RemoveKeepsIds(log, i);
    assert forall s :: s in log[..i] + log[i + 1..] ==> s in log;
  }

  /** Removing a user with that user's rows and transactions keeps the table invariants. */
  lemma CascadeKeepsTables(users: seq<User>, p: Portfolios, log: seq<Transaction>, next: nat, id: nat)
    requires Tables(users, p, log, next)
    ensures Tables(UsersWithout(users, id), RowsWithout(p, id), LogWithout(log, id), next)
  {
    CascadePreserves(p, log, id);
    LogWithoutKeepsIds(log, id);
    UsersWithoutKeepsUnique(users, id);
  }

  /** Logging a transaction with the next id and adding its amount to its pair keeps the table invariants. */
  lemma LogKeepsTables(users: seq<User>, p: Portfolios, log: seq<Transaction>, next: nat, t: Transaction)
    requires Tables(users, p, log, next) && t.id == next
    ensures Tables(users, p[(t.userId, t.categoryId) := Balance(p, t.userId, t.categoryId) + t.amount], log + [t], next + 1)
  {
    LogPreserves(p, log, t);
    AppendFreshKeepsIds(log, t);
  }

  // --------------------------------------------------------- the tables

  class Database {
    var users: seq<User>
    const categories: seq<Category>
    var portfolios: Portfolios
    var transactions: seq<Transaction>
    var nextUserId: nat
    var nextTransactionId: nat

    ghost predicate Valid()
      reads this
    {
      Tables(users, portfolios, transactions, nextTransactionId)
    }

    /** An empty database over a category catalogue (the seeded one, say). */
    constructor (catalogue: seq<Category>)
      ensures Valid()
      ensures categories == catalogue && users == [] && portfolios == map[] && transactions == []
      ensures nextUserId == 1 && nextTransactionId == 1
    {
      categories := catalogue;
      users := [];
      portfolios := map[];
      transactions := [];
      nextUserId := 1;
      nextTransactionId := 1;
    }

    /** `sync_user`: get or create the caller's row. */
    method SyncUser(uid: string, email: Option<string>, name: Option<string>) returns (user: Option<User>)
      requires Valid()
      modifies this
      ensures Valid()
      ensures var r := GetOrCreateUser(old(users), old(nextUserId), uid, email, name);
        users == r.users && nextUserId == r.nextUserId && user == r.user
      ensures portfolios == old(portfolios) && transactions == old(transactions) && nextTransactionId == old(nextTransactionId)
    {
      var r := GetOrCreateUser(users, nextUserId, uid, email, name);
      GetOrCreateKeepsUnique(users, nextUserId, uid, email, name);
      users, nextUserId, user := r.users, r.nextUserId, r.user;
    }

    /** `update_risk_profile` (backend/app/main.py:98-156). */
    method UpdateRiskProfile(uid: string, isJson: bool, profile: string) returns (reply: Reply)
      requires Valid()
      modifies this
      ensures Valid()
      ensures var v := RiskProfileCheck(isJson, profile, FindUser(old(users), uid).Some?);
        match v
        case RiskRejected(f) => reply == Refused(f) && users == old(users)
        case RiskAccepted(stored) =>
          reply == Success(200) && |users| == |old(users)| &&
          forall i :: 0 <= i < |users| ==>
            users[i] == if old(users)[i].firebaseUid == uid then old(users)[i].(riskProfile := stored) else old(users)[i]
      ensures portfolios == old(portfolios) && transactions == old(transactions)
      ensures nextUserId == old(nextUserId) && nextTransactionId == old(nextTransactionId)
    {
      var v := RiskProfileCheck(isJson, profile, FindUser(users, uid).Some?);
      match v
      case RiskRejected(f) =>
        reply := Refused(f);
      case RiskAccepted(stored) =>
        users := seq(|users|, i requires 0 <= i < |users| reads this =>
          if users[i].firebaseUid == uid then users[i].(riskProfile := stored) else users[i]);
        reply := Success(200);
    }

    /**
     * Adds a transaction with the next id to the log and its amount to the
     * balance of its pair, creating the row when it is missing
     * (backend/app/main.py:284-305 and 408-419).
     */
    method Record(t: Transaction)
      requires Valid() && t.id == nextTransactionId
      modifies this
      ensures Valid()
      ensures transactions == old(transactions) + [t]
      ensures portfolios == old(portfolios)[(t.userId, t.categoryId) := Balance(old(portfolios), t.userId, t.categoryId) + t.amount]
      ensures nextTransactionId == old(nextTransactionId) + 1
      ensures users == old(users) && nextUserId == old(nextUserId)
    {
      var p' := portfolios[(t.userId, t.categoryId) := Balance(portfolios, t.userId, t.categoryId) + t.amount];
      LogKeepsTables(users, portfolios, transactions, nextTransactionId, t);
      portfolios := p';
      transactions := transactions + [t];
      nextTransactionId := nextTransactionId + 1;
    }

    /** `invest` POST (backend/app/main.py:233-323). */
    method Invest(uid: string, r: MoneyRequest) returns (reply: Reply)
      requires Valid()
      modifies this
      ensures Valid()
      ensures var user := FindUser(old(users), uid);
        match InvestCheck(user.Some?, r, categories)
        case Reject(f) =>
          reply == Refused(f) && portfolios == old(portfolios) && transactions == old(transactions) &&
          nextTransactionId == old(nextTransactionId)
        case Accept(c, amount) =>
          reply == Success(201) &&
          transactions == old(transactions) + [Transaction(old(nextTransactionId), user.value.id, c, amount)] &&
          portfolios == old(portfolios)[(user.value.id, c) := Balance(old(portfolios), user.value.id, c) + amount] &&
          nextTransactionId == old(nextTransactionId) + 1
      ensures users == old(users) && nextUserId == old(nextUserId)
    {
      var user := FindUser(users, uid);
      var v := InvestCheck(user.Some?, r, categories);
      match v
      case Reject(f) =>
        reply := Refused(f);
      case Accept(c, amount) =>
        var t := Transaction(nextTransactionId, user.value.id, c, amount);
        Record(t);
        reply := Success(201);
    }

    /** `withdraw` POST (backend/app/main.py:349-437). */
    method Withdraw(uid: string, r: MoneyRequest) returns (reply: Reply)
      requires Valid()
      modifies this
      ensures Valid()
      ensures var user := FindUser(old(users), uid);
        match WithdrawCheck(user.Some?, r, categories, old(portfolios), if user.Some? then user.value.id else 0)
        case Reject(f) =>
          reply == Refused(f) && portfolios == old(portfolios) && transactions == old(transactions) &&
          nextTransactionId == old(nextTransactionId)
        case Accept(c, amount) =>
          reply == Success(201) &&
          transactions == old(transactions) + [Transaction(old(nextTransactionId), user.value.id, c, -amount)] &&
          portfolios == old(portfolios)[(user.value.id, c) := old(portfolios)[(user.value.id, c)] - amount] &&
          portfolios[(user.value.id, c)] >= 0 &&
          nextTransactionId == old(nextTransactionId) + 1
      ensures users == old(users) && nextUserId == old(nextUserId)
    {
      var user := FindUser(users, uid);
      var v := WithdrawCheck(user.Some?, r, categories, portfolios, if user.Some? then user.value.id else 0);
      match v
      case Reject(f) =>
        reply := Refused(f);
      case Accept(c, amount) =>
        var t := Transaction(nextTransactionId, user.value.id, c, -amount);
        Record(t);
        reply := Success(201);
    }

    /** `delete_entry` (backend/app/main.py:555-621). */
    method DeleteEntry(uid: string, isJson: bool, entryId: Option<int>) returns (reply: Reply)
      requires Valid()
      modifies this
      ensures Valid()
      ensures var user := FindUser(old(users), uid);
        match DeleteCheck(user.Some?, isJson, entryId, old(transactions), old(portfolios), if user.Some? then user.value.id else 0)
        case DeleteRejected(f) =>
          reply == Refused(f) && portfolios == old(portfolios) && transactions == old(transactions)
        case DeleteAccepted(i) =>
          var t := old(transactions)[i];
          reply == Success(200) &&
          transactions == old(transactions)[..i] + old(transactions)[i + 1..] &&
          portfolios == old(portfolios)[(t.userId, t.categoryId) := old(portfolios)[(t.userId, t.categoryId)] - t.amount]
      ensures users == old(users) && nextUserId == old(nextUserId) && nextTransactionId == old(nextTransactionId)
    {
      var user := FindUser(users, uid);
      var v := DeleteCheck(user.Some?, isJson, entryId, transactions, portfolios, if user.Some? then user.value.id else 0);
      match v
      case DeleteRejected(f) =>
        reply := Refused(f);
      case DeleteAccepted(i) =>
        var t := transactions[i];
        var p' := portfolios[(t.userId, t.categoryId) := Balance(portfolios, t.userId, t.categoryId) - t.amount];
        RemoveKeepsTables(users, portfolios, transactions, nextTransactionId, i);
        portfolios := p';
        transactions := transactions[..i] + transactions[i + 1..];
        reply := Success(200);
    }

    /** `delete_account` (backend/app/main.py:727-758) with the cascade of backend/app/models.py:14-15. */
    method DeleteAccount(uid: string) returns (reply: Reply)
      requires Valid()
      modifies this
      ensures Valid()
      ensures match FindUser(old(users), uid)
        case None =>
          reply == Refused(UserNotFound) && users == old(users) && portfolios == old(portfolios) && transactions == old(transactions)
        case Some(u) =>
          reply == Success(200) && users == UsersWithout(old(users), u.id) &&
          portfolios == RowsWithout(old(portfolios), u.id) && transactions == LogWithout(old(transactions), u.id)
      ensures nextUserId == old(nextUserId) && nextTransactionId == old(nextTransactionId)
    {
      match FindUser(users, uid)
      case None =>
        reply := Refused(UserNotFound);
      case Some(u) =>
        var users', p', log' := UsersWithout(users, u.id), RowsWithout(portfolios, u.id), LogWithout(transactions, u.id);
        CascadeKeepsTables(users, portfolios, transactions, nextTransactionId, u.id);
        users, portfolios, transactions := users', p', log';
        reply := Success(200);
    }
  }
}
