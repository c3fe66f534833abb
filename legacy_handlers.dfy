/**
 * The form handlers of the two legacy Flask applications, main.py and
 * backend/main.py: `signup`, `change_password` and `add_entry` are chains
 * of checks, each answering with the first one that fails. The two copies
 * of `signup` and `add_entry` run their checks in different orders.
 */
module LegacyHandlers {
  import opened Wrappers
  import Passwords

  /**
   * The answer of a chain of checks: the failure of the first check in
   * `order` that fails, if any.
   */
  function FirstFailure<K, E>(order: seq<K>, fails: K -> Option<E>): Option<E> {
    if order == [] then None
    else if fails(order[0]).Some? then fails(order[0])
    else FirstFailure(order[1..], fails)
  }

  /**
   * A chain passes exactly when every check passes, and otherwise fails
   * with a check all of whose predecessors pass.
   */
  lemma {:induction false} FirstFailureMeaning<K, E>(order: seq<K>, fails: K -> Option<E>)
    ensures FirstFailure(order, fails).None? <==> forall i :: 0 <= i < |order| ==> fails(order[i]).None?
    ensures FirstFailure(order, fails).Some? ==>
      (exists i :: 0 <= i < |order| && fails(order[i]) == FirstFailure(order, fails) &&
        (forall j :: 0 <= j < i ==> fails(order[j]).None?))
  {
    if order != [] && fails(order[0]).None? {
      FirstFailureMeaning(order[1..], fails);
      assert forall i :: 0 <= i < |order| - 1 ==> order[1..][i] == order[i + 1];
      if FirstFailure(order, fails).Some? {
        var i :| 0 <= i < |order| - 1 && fails(order[1..][i]) == FirstFailure(order, fails) &&
          (forall j :: 0 <= j < i ==> fails(order[1..][j]).None?);
        assert fails(order[i + 1]) == FirstFailure(order, fails);
      }
    }
  }

  /** A chain of six checks, written out. */
  lemma Unroll6<K, E>(order: seq<K>, fails: K -> Option<E>)
    requires |order| == 6
    ensures FirstFailure(order, fails) ==
      if fails(order[0]).Some? then fails(order[0])
      else if fails(order[1]).Some? then fails(order[1])
      else if fails(order[2]).Some? then fails(order[2])
      else if fails(order[3]).Some? then fails(order[3])
      else if fails(order[4]).Some? then fails(order[4])
      else fails(order[5])
  {
    var o1, o2, o3, o4, o5 := order[1..], order[2..], order[3..], order[4..], order[5..];
    assert FirstFailure(o5, fails) == fails(order[5]) by {
      assert o5[0] == order[5] && o5[1..] == [];
    }
    assert FirstFailure(o4, fails) == if fails(order[4]).Some? then fails(order[4]) else FirstFailure(o5, fails) by {
      assert o4[0] == order[4] && o4[1..] == o5;
    }
    assert FirstFailure(o3, fails) == if fails(order[3]).Some? then fails(order[3]) else FirstFailure(o4, fails) by {
      assert o3[0] == order[3] && o3[1..] == o4;
    }
    assert FirstFailure(o2, fails) == if fails(order[2]).Some? then fails(order[2]) else FirstFailure(o3, fails) by {
      assert o2[0] == order[2] && o2[1..] == o3;
    }
    assert FirstFailure(o1, fails) == if fails(order[1]).Some? then fails(order[1]) else FirstFailure(o2, fails) by {
      assert o1[0] == order[1] && o1[1..] == o2;
    }
  }

  /** Python's `not x` for a form field: absent or empty. */
  predicate Blank(x: Option<string>) {
    x.None? || x.value == ""
  }

  // --------------------------------------------------------------- signup

  datatype SignupForm = SignupForm(username: Option<string>, password: Option<string>, confirmation: Option<string>)

  datatype SignupCheck = UsernameGiven | PasswordGiven | PasswordStrong | ConfirmationGiven | ConfirmationMatches | UsernameFree

  datatype SignupError =
    | UsernameRequired      // "Username is required"
    | PasswordRequired      // "Password is required"
    | WeakPassword(rule: Passwords.Rule)
    | ConfirmationRequired  // "Must confirm password"
    | PasswordsDiffer       // "Passwords do not match"
    | UsernameTaken         // "Username already exists"

  /** One signup check on its own; `existing` holds the usernames already in the Users table. */
  function SignupFails(k: SignupCheck, f: SignupForm, existing: set<string>): Option<SignupError> {
    match k
    case UsernameGiven => if Blank(f.username) then Some(UsernameRequired) else None
    case PasswordGiven => if Blank(f.password) then Some(PasswordRequired) else None
    case PasswordStrong =>
      if !Blank(f.password) && Passwords.FirstBrokenRule(f.password.value).Some?
      then Some(WeakPassword(Passwords.FirstBrokenRule(f.password.value).value)) else None
    case ConfirmationGiven => if Blank(f.confirmation) then Some(ConfirmationRequired) else None
    case ConfirmationMatches => if f.confirmation != f.password then Some(PasswordsDiffer) else None
    case UsernameFree => if !Blank(f.username) && f.username.value in existing then Some(UsernameTaken) else None
  }

  const MainSignupOrder := [UsernameGiven, PasswordGiven, PasswordStrong, ConfirmationGiven, ConfirmationMatches, UsernameFree]
  const BackendSignupOrder := [PasswordGiven, PasswordStrong, ConfirmationGiven, ConfirmationMatches, UsernameGiven, UsernameFree]

  /** Every signup check passes: the form is accepted and a user is created. */
  predicate SignupAccepted(f: SignupForm, existing: set<string>) {
    !Blank(f.username) && !Blank(f.password) && Passwords.FirstBrokenRule(f.password.value).None? &&
    !Blank(f.confirmation) && f.confirmation == f.password && f.username.value !in existing
  }

  /** `signup` of main.py (59-88). */
  function SignupCheckMain(f: SignupForm, existing: set<string>): (r: Option<SignupError>)
    ensures r.None? <==> SignupAccepted(f, existing)
  {
    if Blank(f.username) then Some(UsernameRequired)
    else if Blank(f.password) then Some(PasswordRequired)
    else if Passwords.FirstBrokenRule(f.password.value).Some? then Some(WeakPassword(Passwords.FirstBrokenRule(f.password.value).value))
    else if Blank(f.confirmation) then Some(ConfirmationRequired)
    else if f.confirmation != f.password then Some(PasswordsDiffer)
    else if f.username.value in existing then Some(UsernameTaken)
    else None
  }

  /** `signup` of backend/main.py (56-83): the username is checked after the passwords. */
  function SignupCheckBackend(f: SignupForm, existing: set<string>): (r: Option<SignupError>)
    ensures r.None? <==> SignupAccepted(f, existing)
  {
    if Blank(f.password) then Some(PasswordRequired)
    else if Passwords.FirstBrokenRule(f.password.value).Some? then Some(WeakPassword(Passwords.FirstBrokenRule(f.password.value).value))
    else if Blank(f.confirmation) then Some(ConfirmationRequired)
    else if f.confirmation != f.password then Some(PasswordsDiffer)
    else if Blank(f.username) then Some(UsernameRequired)
    else if f.username.value in existing then Some(UsernameTaken)
    else None
  }

  /** main.py reports the first failing check of `MainSignupOrder`. */
  lemma SignupMainOrder(f: SignupForm, existing: set<string>)
    ensures SignupCheckMain(f, existing) == FirstFailure(MainSignupOrder, k => SignupFails(k, f, existing))
  {
    var o := MainSignupOrder;
    Unroll6(o, k => SignupFails(k, f, existing));
    assert o[0] == UsernameGiven && o[1] == PasswordGiven && o[2] == PasswordStrong;
    assert o[3] == ConfirmationGiven && o[4] == ConfirmationMatches && o[5] == UsernameFree;
  }

  /** backend/main.py reports the first failing check of `BackendSignupOrder`. */
  lemma SignupBackendOrder(f: SignupForm, existing: set<string>)
    ensures SignupCheckBackend(f, existing) == FirstFailure(BackendSignupOrder, k => SignupFails(k, f, existing))
  {
    var o := BackendSignupOrder;
    Unroll6(o, k => SignupFails(k, f, existing));
    assert o[0] == PasswordGiven && o[1] == PasswordStrong && o[2] == ConfirmationGiven;
    assert o[3] == ConfirmationMatches && o[4] == UsernameGiven && o[5] == UsernameFree;
  }

  /** The two copies accept exactly the same forms. */
  lemma SignupCopiesAcceptAlike(f: SignupForm, existing: set<string>)
    ensures SignupCheckMain(f, existing).None? <==> SignupCheckBackend(f, existing).None?
  {
  }

  /** An empty form gets a different first message from each copy. */
  lemma SignupCopiesReportDifferently()
    ensures SignupCheckMain(SignupForm(None, None, None), {}) == Some(UsernameRequired)
    ensures SignupCheckBackend(SignupForm(None, None, None), {}) == Some(PasswordRequired)
  {
  }

  // -------------------------------------------------------- change password

  /**
   * The `change_password` form, together with the outcome of the foreign
   * `check_password_hash` against the stored hash of the session's user
   * (`userFound` is false when that user no longer exists).
   */
  datatype PasswordChange = PasswordChange(current: Option<string>, proposed: Option<string>, confirmation: Option<string>,
                                           userFound: bool, currentMatchesHash: bool, newMatchesHash: bool)

  datatype ChangeCheck = CurrentGiven | NewGiven | ConfirmGiven | ConfirmMatches | NewStrong | CurrentValid | NewDiffers

  datatype ChangeError =
    | CurrentRequired          // "Current password is required"
    | NewRequired              // "New password is required"
    | ConfirmRequired          // "Must confirm new password"
    | ConfirmDiffers           // "Passwords do not match"
    | NewWeak(rule: Passwords.Rule)
    | CurrentInvalid           // "Current password is invalid"
    | SameAsCurrent            // "New password must be different from current password"

  function ChangeFails(k: ChangeCheck, c: PasswordChange): Option<ChangeError> {
    match k
    case CurrentGiven => if Blank(c.current) then Some(CurrentRequired) else None
    case NewGiven => if Blank(c.proposed) then Some(NewRequired) else None
    case ConfirmGiven => if Blank(c.confirmation) then Some(ConfirmRequired) else None
    case ConfirmMatches => if c.confirmation != c.proposed then Some(ConfirmDiffers) else None
    case NewStrong =>
      if !Blank(c.proposed) && Passwords.FirstBrokenRule(c.proposed.value).Some?
      then Some(NewWeak(Passwords.FirstBrokenRule(c.proposed.value).value)) else None
    case CurrentValid => if !c.userFound || !c.currentMatchesHash then Some(CurrentInvalid) else None
    case NewDiffers => if c.newMatchesHash then Some(SameAsCurrent) else None
  }

  const ChangeOrder := [CurrentGiven, NewGiven, ConfirmGiven, ConfirmMatches, NewStrong, CurrentValid, NewDiffers]

  /**
   * `change_password`, identical in main.py (118-151) and backend/main.py
   * (113-146): the new password's strength is judged before the current
   * password is, and it must not match the stored hash.
   */
  function ChangePasswordCheck(c: PasswordChange): (r: Option<ChangeError>)
    ensures r.None? <==> (!Blank(c.current) && c.proposed.Some? && Passwords.FirstBrokenRule(c.proposed.value).None? &&
      c.confirmation == c.proposed && c.userFound && c.currentMatchesHash && !c.newMatchesHash)
  {
    if Blank(c.current) then Some(CurrentRequired)
    else if Blank(c.proposed) then Some(NewRequired)
    else if Blank(c.confirmation) then Some(ConfirmRequired)
    else if c.confirmation != c.proposed then Some(ConfirmDiffers)
    else if Passwords.FirstBrokenRule(c.proposed.value).Some? then Some(NewWeak(Passwords.FirstBrokenRule(c.proposed.value).value))
    else if !c.userFound || !c.currentMatchesHash then Some(CurrentInvalid)
    else if c.newMatchesHash then Some(SameAsCurrent)
    else None
  }

  /** Both copies of `change_password` report the first failing check of `ChangeOrder`. */
  lemma ChangePasswordOrder(c: PasswordChange)
    ensures ChangePasswordCheck(c) == FirstFailure(ChangeOrder, k => ChangeFails(k, c))
  {
    var o := ChangeOrder;
    var fails := k => ChangeFails(k, c);
    Unroll6(o[1..], fails);
    assert o[1..] == [NewGiven, ConfirmGiven, ConfirmMatches, NewStrong, CurrentValid, NewDiffers];
    assert o[0] == CurrentGiven;
  }

  // ------------------------------------------------------------ add entry

  /** The `amount` form field: absent, text `float()` rejects, or a number. */
  datatype AmountField = Absent | Unparseable | Parsed(value: int)

  datatype EntryForm = EntryForm(categoryName: Option<string>, subCategory: Option<string>, amount: AmountField)

  datatype EntryError =
    | ServerError            // `float(None)` raises TypeError, which is not caught
    | InvalidAmount          // "Invalid amount"
    | CategoriesRequired     // "Both category and sub-category are required" (main.py)
    | CategoryRequired       // "Please select a category for your investment" (backend/main.py)
    | SubCategoryRequired    // "Please select a sub-category for your investment" (backend/main.py)
    | UnknownCombination     // "The selected category and sub-category combination does not exist."

  /** The amount step shared by both copies: only `ValueError` is caught. */
  function AmountFails(a: AmountField): (r: Option<EntryError>)
    ensures r.None? <==> a.Parsed?
    ensures a.Absent? ==> r == Some(ServerError)
    ensures a.Unparseable? ==> r == Some(InvalidAmount)
  {
    match a
    case Absent => Some(ServerError)
    case Unparseable => Some(InvalidAmount)
    case Parsed(_) => None
  }

  /** Both copies accept the same entries: a parsed amount and a known, fully named category. */
  predicate EntryAccepted(f: EntryForm, catalogue: set<(string, string)>) {
    f.amount.Parsed? && !Blank(f.categoryName) && !Blank(f.subCategory) &&
    (f.categoryName.value, f.subCategory.value) in catalogue
  }

  /** `add_entry` of main.py (221-235); `catalogue` holds the (name, sub_category) pairs of the Categories table. */
  function AddEntryCheckMain(f: EntryForm, catalogue: set<(string, string)>): (r: Option<EntryError>)
    ensures r.None? <==> EntryAccepted(f, catalogue)
    ensures !f.amount.Parsed? ==> r == AmountFails(f.amount)
    ensures f.amount.Parsed? && (Blank(f.categoryName) || Blank(f.subCategory)) ==> r == Some(CategoriesRequired)
    ensures r == Some(UnknownCombination) <==> (f.amount.Parsed? && !Blank(f.categoryName) && !Blank(f.subCategory) &&
      (f.categoryName.value, f.subCategory.value) !in catalogue)
  {
    if !f.amount.Parsed? then AmountFails(f.amount)
    else if Blank(f.categoryName) || Blank(f.subCategory) then Some(CategoriesRequired)
    else if (f.categoryName.value, f.subCategory.value) !in catalogue then Some(UnknownCombination)
    else None
  }

  /** `add_entry` of backend/main.py (210-231): a separate message for each missing field. */
  function AddEntryCheckBackend(f: EntryForm, catalogue: set<(string, string)>): (r: Option<EntryError>)
    ensures r.None? <==> EntryAccepted(f, catalogue)
    ensures !f.amount.Parsed? ==> r == AmountFails(f.amount)
    ensures f.amount.Parsed? && Blank(f.categoryName) ==> r == Some(CategoryRequired)
    ensures f.amount.Parsed? && !Blank(f.categoryName) && Blank(f.subCategory) ==> r == Some(SubCategoryRequired)
    ensures r == Some(UnknownCombination) <==> (f.amount.Parsed? && !Blank(f.categoryName) && !Blank(f.subCategory) &&
      (f.categoryName.value, f.subCategory.value) !in catalogue)
  {
    if !f.amount.Parsed? then AmountFails(f.amount)
    else if Blank(f.categoryName) then Some(CategoryRequired)
    else if Blank(f.subCategory) then Some(SubCategoryRequired)
    else if (f.categoryName.value, f.subCategory.value) !in catalogue then Some(UnknownCombination)
    else None
  }

  /** Neither copy refuses a zero or negative amount. */
  lemma AddEntryAcceptsAnySign(name: string, sub: string, amount: int, catalogue: set<(string, string)>)
    requires name != "" && sub != "" && (name, sub) in catalogue
    ensures AddEntryCheckMain(EntryForm(Some(name), Some(sub), Parsed(amount)), catalogue).None?
    ensures AddEntryCheckBackend(EntryForm(Some(name), Some(sub), Parsed(amount)), catalogue).None?
  {
  }
}
