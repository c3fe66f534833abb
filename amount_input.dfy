/**
 * The amount field of script/amount.js: on every `input` event the text is
 * reduced to its digits and shown as a dollar amount grouped by thousands;
 * on `blur` a missing dollar sign is added.
 */
module AmountInput {
  import opened Formatting

  /** The field's text after an `input` event (script/amount.js:5-12). */
  function Reformat(typed: string): string {
    var digits := KeepDigits(typed);
    if digits != "" then "$" + Group(DecimalDigits(DigitsValue(digits)), ',') else ""
  }

  predicate StartsWithDollar(s: string) {
    |s| > 0 && s[0] == '$'
  }

  /** The field's text after a `blur` event (script/amount.js:17-19). */
  function Blurred(v: string): (r: string)
    ensures v != "" ==> StartsWithDollar(r)
    ensures StartsWithDollar(v) || v == "" ==> r == v
    ensures !StartsWithDollar(v) && v != "" ==> r[1..] == v
  {
    if !StartsWithDollar(v) && v != "" then "$" + v else v
  }

  /** The field is emptied exactly when the typed text has no digit. */
  lemma ReformatEmpty(typed: string)
    ensures Reformat(typed) == "" <==> KeepDigits(typed) == ""
  {
  }

  /**
   * A non-empty result is a dollar sign followed by the typed digits' value,
   * written without leading zeros and grouped in threes by commas.
   */
  lemma ReformatShape(typed: string)
    requires KeepDigits(typed) != ""
    ensures StartsWithDollar(Reformat(typed))
    ensures GroupedBy(Reformat(typed)[1..], ',')
    ensures Strip(Reformat(typed), {'$', ','}) == DecimalDigits(ParseDigits(typed))
  {
    var d := DecimalDigits(ParseDigits(typed));
    assert Reformat(typed) == "$" + Group(d, ',');
    assert ("$" + Group(d, ','))[1..] == Group(d, ',');
    DigitsHaveNoSeparator(ParseDigits(typed), ',');
    GroupShape(d, ',');
    StripDollarGroup(d);
  }

  /** Removing '$' and ',' from a dollar sign and a comma grouping gives the digits back. */
  lemma StripDollarGroup(d: string)
    requires AllDigits(d)
    ensures Strip("$" + Group(d, ','), {'$', ','}) == d
  {
    var drop := {'$', ','};
    StripAppend("$", Group(d, ','), drop);
    StripDropped('$', drop);
    assert forall i :: 0 <= i < |d| ==> d[i] !in drop by {
      forall i | 0 <= i < |d| ensures d[i] !in drop {
        assert IsDigit(d[i]);
      }
    }
    StripGroup(d, ',', drop);
  }

  /** Reformatting an already reformatted text changes nothing. */
  lemma ReformatIdempotent(typed: string)
    ensures Reformat(Reformat(typed)) == Reformat(typed)
  {
    var digits := KeepDigits(typed);
    if digits != "" {
      var v := DigitsValue(digits);
      var d := DecimalDigits(v);
      var r := Reformat(typed);
      assert r == "$" + Group(d, ',');
      KeepDigitsAppend("$", Group(d, ','));
      assert KeepDigits("$") == "" by { assert "$"[..0] == ""; }
      KeepDigitsGroup(d, ',');
      assert KeepDigits(r) == d;
      DecimalDigitsValue(v);
    }
  }

  /** Blurring twice is blurring once: the dollar sign is never doubled. */
  lemma BlurIdempotent(v: string)
    ensures Blurred(Blurred(v)) == Blurred(v)
  {
  }

  /** Blurring a reformatted field leaves it as it is. */
  lemma BlurAfterInput(typed: string)
    ensures Blurred(Reformat(typed)) == Reformat(typed)
  {
  }

  /** The `<input id="amount">` element whose `value` both handlers overwrite. */
  class AmountField {
    var value: string

    constructor (initial: string)
      ensures value == initial
    {
      value := initial;
    }

    /** The `input` listener (script/amount.js:3-13). */
    method OnInput()
      modifies this
      ensures value == Reformat(old(value))
    {
      var digits := KeepDigits(value);
      if digits != "" {
        value := "$" + Group(DecimalDigits(DigitsValue(digits)), ',');
      } else {
        value := "";
      }
    }

    /** The `blur` listener (script/amount.js:15-20). */
    method OnBlur()
      modifies this
      ensures value == Blurred(old(value))
    {
      if !StartsWithDollar(value) && value != "" {
        value := "$" + value;
      }
    }
  }
}
