/**
 * The invest/withdraw form (elements/TransactionForm.jsx): the amount the
 * `<input type='number'>` holds, the client-side validation, the field
 * change handler, submission, and the category choices.
 */
module TransactionForms {
  import opened Wrappers

  newtype Digit = d: int | 0 <= d < 10

  /**
   * The text of an `<input type='number'>`, which is either empty or a valid
   * floating-point number in the HTML sense: an optional '-', integer digits,
   * an optional '.' with fraction digits, and an optional exponent. `intPart`
   * is None when the text starts with '.', as in ".5".
   */
  datatype Numeral = Numeral(negative: bool, intPart: Option<nat>, fraction: seq<Digit>, exponent: int)

  /**
   * A text a number input can hold has digits before or after the '.'; the
   * lemmas below hold for every numeral, so they need no such assumption.
   */
  predicate WellFormed(n: Numeral) {
    n.intPart.Some? || n.fraction != []
  }

  datatype AmountText = Empty | Typed(numeral: Numeral)

  function Pow10(e: nat): (p: nat)
    ensures p >= 1
  {
    if e == 0 then 1 else 10 * Pow10(e - 1)
  }

  /** 10 to the power `e`, for any integer `e`. */
  function Scale(e: int): (s: real)
    ensures s > 0.0
  {
    if e >= 0 then Pow10(e) as real else 1.0 / Pow10(-e) as real
  }

  /** The value of the digits after the '.'. */
  function FractionValue(ds: seq<Digit>): (f: real)
    ensures 0.0 <= f < 1.0
  {
    if ds == [] then 0.0 else (ds[0] as real + FractionValue(ds[1..])) / 10.0
  }

  /** The number the text denotes: what `parseFloat` and the `<=` coercion read. */
  function Value(n: Numeral): real {
    (if n.negative then -1.0 else 1.0) * ((n.intPart.GetOr(0) as real + FractionValue(n.fraction)) * Scale(n.exponent))
  }

  /** `Number.isInteger`. */
  predicate Whole(v: real) {
    v.Floor as real == v
  }

  /**
   * `parseInt(text)`: the sign and the leading integer digits, stopping at
   * '.' or 'e'; `NaN` (None) when the text has no leading digit.
   */
  function ParseInt(n: Numeral): (r: Option<int>)
    ensures r.Some? <==> n.intPart.Some?
  {
    match n.intPart
    case None => None
    case Some(i) => Some(if n.negative then -(i as int) else i)
  }

  /** The amount the form submits once validation has passed (see Findings). */
  function SubmittedAmount(n: Numeral): int {
    Value(n).Floor
  }

  // ------------------------------------------------------------- validation

  /** `actionType`: only 'withdraw' enables the balance check. */
  datatype Action = Invest | Withdraw

  datatype Field = AmountField | CategoryField | SubCategoryField

  datatype FormError =
    | InvalidAmount            // 'Veuillez entrer un montant valide'
    | NotWhole                 // 'Veuillez entrer un montant entier (sans décimales)'
    | Insufficient(available: int)  // 'Solde insuffisant (disponible: …€)'
    | NoCategory               // 'Veuillez sélectionner une catégorie'
    | NoAccount                // 'Veuillez sélectionner un compte'

  datatype FormData = FormData(amount: AmountText, categoryName: string, subCategory: string)

  /** An entry of the category list: a category name and one of its accounts. */
  datatype CategoryOption = CategoryOption(categoryName: string, subCategory: string)

  /** The key of `availableBalances`: `${categoryName}-${subCategory}`. */
  function BalanceKey(categoryName: string, subCategory: string): string {
    categoryName + "-" + subCategory
  }

  /** `availableBalances[key] || 0`. */
  function Available(balances: map<string, int>, key: string): int {
    if key in balances then balances[key] else 0
  }

  /** The withdrawal check runs: a withdrawal with amount, category and account all filled in. */
  predicate BalanceChecked(f: FormData, action: Action) {
    action == Withdraw && f.amount.Typed? && f.categoryName != "" && f.subCategory != ""
  }

  /**
   * The amount's error, by priority: an insufficient balance, else a
   * fractional amount, else an empty or non-positive one. Each later check
   * of `validateForm` overwrites the earlier.
   */
  function AmountError(f: FormData, action: Action, balances: map<string, int>): Option<FormError> {
    var available := Available(balances, BalanceKey(f.categoryName, f.subCategory));
    if BalanceChecked(f, action) && Value(f.amount.numeral) > available as real then Some(Insufficient(available))
    else if f.amount.Typed? && !Whole(Value(f.amount.numeral)) then Some(NotWhole)
    else if f.amount.Empty? || Value(f.amount.numeral) <= 0.0 then Some(InvalidAmount)
    else None
  }

  /** Adds `k` with the error `e`, if there is one. */
  function Put(m: map<Field, FormError>, k: Field, e: Option<FormError>): map<Field, FormError> {
    if e.Some? then m[k := e.value] else m
  }

  /** The errors `validateForm` reports, field by field. */
  function Expected(f: FormData, action: Action, balances: map<string, int>): map<Field, FormError> {
    var m := Put(map[], AmountField, AmountError(f, action, balances));
    var m := Put(m, CategoryField, if f.categoryName == "" then Some(NoCategory) else None);
    Put(m, SubCategoryField, if f.subCategory == "" then Some(NoAccount) else None)
  }

  /** The form passes exactly when the amount is a positive whole number within the balance, and both choices are made. */
  predicate Acceptable(f: FormData, action: Action, balances: map<string, int>) {
    f.amount.Typed? && Value(f.amount.numeral) > 0.0 && Whole(Value(f.amount.numeral)) &&
    f.categoryName != "" && f.subCategory != "" &&
    (action == Withdraw ==> Value(f.amount.numeral) <= Available(balances, BalanceKey(f.categoryName, f.subCategory)) as real)
  }

  lemma NoErrorsIff(f: FormData, action: Action, balances: map<string, int>)
    ensures Expected(f, action, balances) == map[] <==> Acceptable(f, action, balances)
  {
    var e := Expected(f, action, balances);
    if AmountError(f, action, balances).Some? {
      assert AmountField in e;
    }
    if f.categoryName == "" {
      assert CategoryField in e;
    }
    if f.subCategory == "" {
      assert SubCategoryField in e;
    }
  }

  /** The category and account errors depend on those choices alone, not on the amount. */
  lemma ChoiceErrors(f: FormData, action: Action, balances: map<string, int>)
    ensures CategoryField in Expected(f, action, balances) <==> f.categoryName == ""
    ensures SubCategoryField in Expected(f, action, balances) <==> f.subCategory == ""
    ensures CategoryField in Expected(f, action, balances) ==> Expected(f, action, balances)[CategoryField] == NoCategory
    ensures SubCategoryField in Expected(f, action, balances) ==> Expected(f, action, balances)[SubCategoryField] == NoAccount
  {
  }

  /** A fractional amount reports the whole-number message, even when it is also not positive, unless the balance check fires. */
  lemma FractionOverridesInvalid(f: FormData, action: Action, balances: map<string, int>)
    requires f.amount.Typed? && !Whole(Value(f.amount.numeral)) && !BalanceChecked(f, action)
    ensures Expected(f, action, balances)[AmountField] == NotWhole
  {
  }

  /** A deposit is never refused for its balance. */
  lemma DepositHasNoBalanceCheck(f: FormData, balances: map<string, int>)
    ensures AmountField in Expected(f, Invest, balances) ==> !Expected(f, Invest, balances)[AmountField].Insufficient?
  {
  }

  /** Withdrawing exactly the available balance passes. */
  lemma FullBalancePasses(f: FormData, balances: map<string, int>)
    requires f.categoryName != "" && f.subCategory != "" && f.amount.Typed?
    requires Available(balances, BalanceKey(f.categoryName, f.subCategory)) > 0
    requires Value(f.amount.numeral) == Available(balances, BalanceKey(f.categoryName, f.subCategory)) as real
    ensures Expected(f, Withdraw, balances) == map[]
  {
    NoErrorsIff(f, Withdraw, balances);
  }

  /** A key missing from the balances counts as 0, so any positive withdrawal from it is refused. */
  lemma UnknownKeyHasNoBalance(f: FormData, balances: map<string, int>)
    requires f.categoryName != "" && f.subCategory != "" && f.amount.Typed? && Value(f.amount.numeral) > 0.0
    requires BalanceKey(f.categoryName, f.subCategory) !in balances
    ensures Expected(f, Withdraw, balances)[AmountField] == Insufficient(0)
  {
  }

  // ----------------------------------------------------------- submission

  /**
   * As written, `handleSubmit` sends `parseInt(formData.amount)`, which reads
   * only the leading digits: "1e3" passes validation as 1000, and 1 is sent.
   */
  lemma ExponentAmountTruncated()
    ensures var n := Numeral(false, Some(1), [], 3);
      WellFormed(n) &&
      Expected(FormData(Typed(n), "Épargne", "Livret A"), Invest, map[]) == map[] &&
      Value(n) == 1000.0 && ParseInt(n) == Some(1)
  {
    var n := Numeral(false, Some(1), [], 3);
    assert Pow10(3) == 1000;
    assert Value(n) == 1000.0;
    assert Whole(1000.0);
    NoErrorsIff(FormData(Typed(n), "Épargne", "Livret A"), Invest, map[]);
  }

  /**
   * The amount sent for a form that passed validation is the number that was
   * validated: positive, whole, and for a withdrawal within the balance.
   */
  lemma SubmittedAmountIsValidated(f: FormData, action: Action, balances: map<string, int>)
    requires Expected(f, action, balances) == map[]
    ensures f.amount.Typed?
    ensures SubmittedAmount(f.amount.numeral) as real == Value(f.amount.numeral)
    ensures SubmittedAmount(f.amount.numeral) > 0
    ensures action == Withdraw ==> SubmittedAmount(f.amount.numeral) <= Available(balances, BalanceKey(f.categoryName, f.subCategory))
  {
    NoErrorsIff(f, action, balances);
  }

  /** An integer plus a fraction in [0, 1) is whole only when the fraction is 0. */
  lemma WholeFraction(i: int, fr: real)
    requires 0.0 <= fr < 1.0 && Whole(i as real + fr)
    ensures fr == 0.0
  {
    var k := (i as real + fr).Floor;
    assert fr == (k - i) as real;
  }

  lemma WholeNegated(v: real)
    requires Whole(-v)
    ensures Whole(v)
  {
    var k := (-v).Floor;
    assert v == (-k) as real;
  }

  /** For plain decimal text, which is what typing usually gives, `parseInt` and the validated number agree. */
  lemma PlainNumeralsAgree(n: Numeral)
    requires n.intPart.Some? && n.exponent == 0 && Whole(Value(n))
    ensures ParseInt(n) == Some(SubmittedAmount(n))
  {
    var i := n.intPart.value;
    var fr := FractionValue(n.fraction);
    assert Scale(0) == 1.0;
    var magnitude := i as real + fr;
    if n.negative {
      assert Value(n) == -magnitude;
      WholeNegated(magnitude);
      WholeFraction(i, fr);
      assert Value(n) == (-(i as int)) as real;
    } else {
      assert Value(n) == magnitude;
      WholeFraction(i, fr);
      assert Value(n) == i as real;
    }
  }

  /** What `onSubmit` receives; an amount of None stands for `NaN`. */
  datatype Submission = Submission(categoryName: string, subCategory: string, actionType: Action, amount: Option<int>)

  // -------------------------------------------------------- category lists

  /** `categories.filter((cat) => cat.category_name === value)`. */
  function OptionsOf(categories: seq<CategoryOption>, name: string): (r: seq<CategoryOption>)
    ensures |r| <= |categories|
    ensures forall c :: c in r <==> c in categories && c.categoryName == name
  {
    if categories == [] then []
    else
      var rest := OptionsOf(categories[1..], name);
      assert forall c :: c in categories <==> c == categories[0] || c in categories[1..];
      if categories[0].categoryName == name then [categories[0]] + rest else rest
  }

  /** `filter` keeps the order and the repetitions of its input: it distributes over concatenation. */
  lemma {:induction false} OptionsOfAppend(a: seq<CategoryOption>, b: seq<CategoryOption>, name: string)
    ensures OptionsOf(a + b, name) == OptionsOf(a, name) + OptionsOf(b, name)
  {
    if a == [] {
      assert a + b == b;
    } else {
      assert (a + b)[0] == a[0] && (a + b)[1..] == a[1..] + b;
      OptionsOfAppend(a[1..], b, name);
    }
  }

  /** A single option is kept exactly when it belongs to the chosen category. */
  lemma OptionsOfSingle(c: CategoryOption, name: string)
    ensures OptionsOf([c], name) == if c.categoryName == name then [c] else []
  {
    assert [c][1..] == [];
  }

  /** `categories.map((cat) => cat.category_name)`. */
  function Names(categories: seq<CategoryOption>): (ns: seq<string>)
    ensures |ns| == |categories|
    ensures forall i :: 0 <= i < |ns| ==> ns[i] == categories[i].categoryName
  {
    if categories == [] then [] else Names(categories[..|categories| - 1]) + [categories[|categories| - 1].categoryName]
  }

  /** `[...new Set(names)]`: a name joins the set the first time it is seen. */
  function Unique(ns: seq<string>): seq<string> {
    if ns == [] then []
    else
      var seen := Unique(ns[..|ns| - 1]);
      if ns[|ns| - 1] in seen then seen else seen + [ns[|ns| - 1]]
  }

  /** `uniqueCategories`. */
  function UniqueCategories(categories: seq<CategoryOption>): seq<string> {
    Unique(Names(categories))
  }

  /** Position of the first occurrence of `x`. */
  function FirstIndex(ns: seq<string>, x: string): (i: nat)
    requires x in ns
    ensures i < |ns| && ns[i] == x && x !in ns[..i]
  {
    if ns[0] == x then 0 else 1 + FirstIndex(ns[1..], x)
  }

  lemma {:induction false} FirstIndexSnoc(ns: seq<string>, y: string, x: string)
    requires x in ns
    ensures FirstIndex(ns + [y], x) == FirstIndex(ns, x)
  {
    assert (ns + [y])[0] == ns[0];
    if ns[0] != x {
      assert (ns + [y])[1..] == ns[1..] + [y];
      FirstIndexSnoc(ns[1..], y, x);
    }
  }

  /**
   * Each name once, every name of the list present, in order of first
   * appearance.
   */
  lemma {:induction false} UniqueMeaning(ns: seq<string>)
    ensures forall i, j :: 0 <= i < j < |Unique(ns)| ==> Unique(ns)[i] != Unique(ns)[j]
    ensures forall x :: x in Unique(ns) <==> x in ns
    ensures forall i, j :: 0 <= i < j < |Unique(ns)| ==> FirstIndex(ns, Unique(ns)[i]) < FirstIndex(ns, Unique(ns)[j])
  {
    if ns != [] {
      var init, last := ns[..|ns| - 1], ns[|ns| - 1];
      UniqueMeaning(init);
      assert ns == init + [last];
      assert forall x :: x in ns <==> x in init || x == last;
      var seen := Unique(init);
      forall x | x in seen
        ensures FirstIndex(ns, x) == FirstIndex(init, x)
      {
        FirstIndexSnoc(init, last, x);
      }
      if last !in seen {
        assert last !in init;
        assert FirstIndex(ns, last) == |init| by {
          assert ns[..|init|] == init;
        }
        var u := seen + [last];
        forall i, j | 0 <= i < j < |u|
          ensures FirstIndex(ns, u[i]) < FirstIndex(ns, u[j])
        {
          assert u[i] == seen[i] && u[i] in seen;
          if j < |seen| {
            assert u[j] == seen[j] && u[j] in seen;
          } else {
            assert FirstIndex(init, u[i]) < |init|;
          }
        }
      }
    }
  }

  /** The category choices: each name once, in order of first appearance. */
  lemma UniqueCategoriesMeaning(categories: seq<CategoryOption>)
    ensures forall i, j :: 0 <= i < j < |UniqueCategories(categories)| ==> UniqueCategories(categories)[i] != UniqueCategories(categories)[j]
    ensures forall x :: x in UniqueCategories(categories) <==> x in Names(categories)
    ensures forall i, j :: 0 <= i < j < |UniqueCategories(categories)| ==>
      FirstIndex(Names(categories), UniqueCategories(categories)[i]) < FirstIndex(Names(categories), UniqueCategories(categories)[j])
  {
    UniqueMeaning(Names(categories));
  }

  /**
   * `currentBalance`: shown for a withdrawal once both choices are made and
   * the key is known; it is the balance the withdrawal check compares with.
   */
  function CurrentBalance(f: FormData, balances: map<string, int>): (r: Option<int>)
    ensures r.Some? <==> f.categoryName != "" && f.subCategory != "" && BalanceKey(f.categoryName, f.subCategory) in balances
    ensures r.Some? ==> r.value == Available(balances, BalanceKey(f.categoryName, f.subCategory))
  {
    var key := BalanceKey(f.categoryName, f.subCategory);
    if f.categoryName != "" && f.subCategory != "" && key in balances then Some(balances[key]) else None
  }

  // ------------------------------------------------------------ component

  /** An `onChange` event of one of the three inputs. */
  datatype Edit = AmountTyped(text: AmountText) | CategoryChosen(name: string) | AccountChosen(name: string)

  function FieldOf(e: Edit): Field {
    match e
    case AmountTyped(_) => AmountField
    case CategoryChosen(_) => CategoryField
    case AccountChosen(_) => SubCategoryField
  }

  /** The component's state. */
  class TransactionForm {
    const actionType: Action
    var formData: FormData
    var errors: map<Field, FormError>
    var categories: seq<CategoryOption>
    var subCategories: seq<CategoryOption>
    var availableBalances: map<string, int>

    /** The state before the mount effect has run. */
    constructor(actionType: Action)
      ensures this.actionType == actionType
      ensures formData == FormData(Empty, "", "") && errors == map[]
      ensures categories == [] && subCategories == [] && availableBalances == map[]
    {
      this.actionType := actionType;
      formData := FormData(Empty, "", "");
      errors := map[];
      categories := [];
      subCategories := [];
      availableBalances := map[];
    }

    /** The mount effect: the category list, and the balances for a withdrawal only. */
    method Mount(categoryList: seq<CategoryOption>, balances: map<string, int>)
      modifies this
      ensures categories == categoryList
      ensures availableBalances == if actionType == Withdraw then balances else old(availableBalances)
      ensures formData == old(formData) && errors == old(errors) && subCategories == old(subCategories)
    {
      categories := categoryList;
      if actionType == Withdraw {
        availableBalances := balances;
      }
    }

    /**
     * `handleChange`: stores the value, clears that field's error and no
     * other, and on a category change resets the account and restricts the
     * account list to the chosen category.
     */
    method HandleChange(e: Edit)
      modifies this
      ensures formData == match e
        case AmountTyped(t) => old(formData).(amount := t)
        case CategoryChosen(n) => old(formData).(categoryName := n, subCategory := "")
        case AccountChosen(n) => old(formData).(subCategory := n)
      ensures errors == old(errors) - {FieldOf(e)}
      ensures subCategories == if e.CategoryChosen? then OptionsOf(categories, e.name) else old(subCategories)
      ensures categories == old(categories) && availableBalances == old(availableBalances)
    {
      match e {
        case AmountTyped(t) =>
          formData := formData.(amount := t);
        case CategoryChosen(n) =>
          formData := formData.(categoryName := n);
        case AccountChosen(n) =>
          formData := formData.(subCategory := n);
      }
      if FieldOf(e) in errors {
        errors := errors - {FieldOf(e)};
      }
      if e.CategoryChosen? {
        subCategories := OptionsOf(categories, e.name);
        formData := formData.(subCategory := "");
      }
    }

    /** `validateForm`: fills a fresh error dictionary check by check, later amount errors overwriting earlier ones. */
    method ValidateForm() returns (newErrors: map<Field, FormError>)
      ensures newErrors == Expected(formData, actionType, availableBalances)
    {
      newErrors := map[];
      if formData.amount.Empty? || Value(formData.amount.numeral) <= 0.0 {
        newErrors := newErrors[AmountField := InvalidAmount];
      }
      if formData.amount.Typed? && !Whole(Value(formData.amount.numeral)) {
        newErrors := newErrors[AmountField := NotWhole];
      }
      if formData.categoryName == "" {
        newErrors := newErrors[CategoryField := NoCategory];
      }
      if formData.subCategory == "" {
        newErrors := newErrors[SubCategoryField := NoAccount];
      }
      if actionType == Withdraw && formData.amount.Typed? && formData.categoryName != "" && formData.subCategory != "" {
        var available := Available(availableBalances, BalanceKey(formData.categoryName, formData.subCategory));
        if Value(formData.amount.numeral) > available as real {
          newErrors := newErrors[AmountField := Insufficient(available)];
        }
      }
    }

    /**
     * `handleSubmit` as written: with errors, shows them and sends nothing;
     * without, sends the form with `parseInt` of the amount text, which for
     * plain decimal text is the validated number (see Findings).
     */
    method HandleSubmit() returns (sent: Option<Submission>)
      modifies this
      ensures formData == old(formData) && categories == old(categories) && subCategories == old(subCategories)
      ensures availableBalances == old(availableBalances)
      ensures Expected(formData, actionType, availableBalances) != map[] ==>
        sent.None? && errors == Expected(formData, actionType, availableBalances)
      ensures Expected(formData, actionType, availableBalances) == map[] ==>
        errors == old(errors) && formData.amount.Typed? &&
        sent == Some(Submission(formData.categoryName, formData.subCategory, actionType, ParseInt(formData.amount.numeral)))
      ensures var n := formData.amount;
        Expected(formData, actionType, availableBalances) == map[] && n.Typed? && n.numeral.intPart.Some? && n.numeral.exponent == 0 ==>
        sent.Some? && sent.value.amount == Some(SubmittedAmount(n.numeral))
    {
      var validationErrors := ValidateForm();
      if validationErrors != map[] {
        errors := validationErrors;
        return None;
      }
      NoErrorsIff(formData, actionType, availableBalances);
      var n := formData.amount.numeral;
      if n.intPart.Some? && n.exponent == 0 {
        PlainNumeralsAgree(n);
      }
      sent := Some(Submission(formData.categoryName, formData.subCategory, actionType, ParseInt(n)));
    }

    /**
     * `handleSubmit` as evidently intended: the amount sent is the number
     * that was validated, so it is positive, whole and, for a withdrawal,
     * within the available balance.
     */
    method HandleSubmitIntended() returns (sent: Option<Submission>)
      modifies this
      ensures formData == old(formData) && categories == old(categories) && subCategories == old(subCategories)
      ensures availableBalances == old(availableBalances)
      ensures Expected(formData, actionType, availableBalances) != map[] ==>
        sent.None? && errors == Expected(formData, actionType, availableBalances)
      ensures Expected(formData, actionType, availableBalances) == map[] ==>
        errors == old(errors) && formData.amount.Typed? &&
        sent == Some(Submission(formData.categoryName, formData.subCategory, actionType, Some(SubmittedAmount(formData.amount.numeral))))
      ensures sent.Some? ==>
        sent.value.amount.Some? && sent.value.amount.value > 0 &&
        sent.value.amount.value as real == Value(formData.amount.numeral) &&
        (actionType == Withdraw ==> sent.value.amount.value <= Available(availableBalances, BalanceKey(formData.categoryName, formData.subCategory)))
    {
      var validationErrors := ValidateForm();
      if validationErrors != map[] {
        errors := validationErrors;
        return None;
      }
      SubmittedAmountIsValidated(formData, actionType, availableBalances);
      sent := Some(Submission(formData.categoryName, formData.subCategory, actionType, Some(SubmittedAmount(formData.amount.numeral))));
    }
  }
}
