/**
 * The sale form: the Rupiah input rule, the running total, the change owed
 * to the customer, and the checks made before a sale is sent.
 *
 * JavaScript's number coercions are parameters, since which strings they
 * accept belongs to the language runtime: `toNumber` is `Number(s)` on a
 * non-empty field, `parseFloat` yields `None` where JavaScript yields `NaN`,
 * and `isNumeric(s)` is `!isNaN(s)`.
 */
module TransactionForm {
  import opened Wrappers

  /** `parseRupiah`: strips the thousands separators the field displays. */
  function ParseRupiah(s: string): (r: string)
    ensures '.' !in r
    ensures |r| <= |s|
    decreases |s|
  {
    if |s| == 0 then ""
    else (if s[0] == '.' then "" else [s[0]]) + ParseRupiah(s[1..])
  }

  /** Stripping works piece by piece, so the other characters keep their order. */
  lemma {:induction false} ParseRupiahAppend(a: string, b: string)
    ensures ParseRupiah(a + b) == ParseRupiah(a) + ParseRupiah(b)
    decreases |a|
  {
    if |a| == 0 {
      assert a + b == b;
    } else {
      assert (a + b)[0] == a[0] && (a + b)[1..] == a[1..] + b;
      ParseRupiahAppend(a[1..], b);
    }
  }

  /** Only the dots go: every other character is kept as often as it occurs. */
  lemma {:induction false} ParseRupiahKeepsOthers(s: string)
    ensures forall c :: c != '.' ==> multiset(ParseRupiah(s))[c] == multiset(s)[c]
    ensures |ParseRupiah(s)| == |s| - multiset(s)['.']
    decreases |s|
  {
    if |s| > 0 {
      ParseRupiahKeepsOthers(s[1..]);
      assert s == [s[0]] + s[1..];
      assert multiset(s) == multiset{s[0]} + multiset(s[1..]);
    }
  }

  /** A string without dots is left as it is; so stripping twice is stripping once. */
  lemma {:induction false} ParseRupiahFixesDotFree(s: string)
    requires '.' !in s
    ensures ParseRupiah(s) == s
    decreases |s|
  {
    if |s| > 0 {
      ParseRupiahFixesDotFree(s[1..]);
      assert [s[0]] + s[1..] == s;
    }
  }

  lemma ParseRupiahIdempotent(s: string)
    ensures ParseRupiah(ParseRupiah(s)) == ParseRupiah(s)
  {
    ParseRupiahFixesDotFree(ParseRupiah(s));
  }

  /** `formData`: every field holds the text of its input. */
  datatype Form = Form(productName: string, quantity: string, costPrice: string, sellingPrice: string)

  datatype Field = ProductName | Quantity | CostPrice | SellingPrice | UangCash

  /** `field || 0` used as a number. */
  function OrZero(field: string, toNumber: string -> int): int {
    if field == "" then 0 else toNumber(field)
  }

  /** `totalTransaksi`. */
  function Total(form: Form, toNumber: string -> int): (r: int)
    ensures form.sellingPrice == "" || form.quantity == "" ==> r == 0
    ensures form.sellingPrice != "" && form.quantity != "" ==>
      r == toNumber(form.sellingPrice) * toNumber(form.quantity)
  {
    OrZero(form.sellingPrice, toNumber) * OrZero(form.quantity, toNumber)
  }

  /** `uangKembali`: what is handed back, given the cash as parsed. */
  function Change(cash: Option<int>, total: int): (r: int)
    ensures r >= 0
    ensures cash.Some? && cash.value >= total ==> r == cash.value - total
    ensures cash.None? || cash.value < total ==> r == 0
  {
    match cash
    case Some(c) => if c >= total then c - total else 0
    case None => 0
  }

  /** The guard of the currency inputs: numeric after stripping dots, and at most 15 characters. */
  predicate Accepted(parsed: string, isNumeric: string -> bool) {
    isNumeric(parsed) && |parsed| <= 15
  }

  /**
   * The cash check of `validate` as written: empty, or parsed and below the
   * total. Cash that does not parse compares false with the total and passes.
   */
  predicate CashFlagged(uangCash: string, total: int, parseFloat: string -> Option<int>) {
    uangCash == "" || (parseFloat(uangCash).Some? && parseFloat(uangCash).value < total)
  }

  /**
   * A lone space passes both the cash input's guard (`isNaN(" ")` is false,
   * since `Number(" ")` is 0) and the cash check (`parseFloat(" ")` is NaN),
   * so a sale of any total validates with no cash entered.
   */
  lemma BlankCashPassesValidation(total: int, isNumeric: string -> bool, parseFloat: string -> Option<int>)
    requires isNumeric(" ") && parseFloat(" ") == None
    ensures Accepted(ParseRupiah(" "), isNumeric) && ParseRupiah(" ") == " "
    ensures !CashFlagged(" ", total, parseFloat)
  {
    ParseRupiahFixesDotFree(" ");
  }

  /** The evidently intended cash check: the cash must parse and cover the total. */
  predicate CashFlaggedIntended(uangCash: string, total: int, parseFloat: string -> Option<int>) {
    uangCash == "" || parseFloat(uangCash).None? || parseFloat(uangCash).value < total
  }

  /** Under the intended check, cash that passes covers the total and the change is what is left. */
  lemma IntendedCashCoversTotal(uangCash: string, total: int, parseFloat: string -> Option<int>)
    requires !CashFlaggedIntended(uangCash, total, parseFloat)
    ensures parseFloat(uangCash).Some? && parseFloat(uangCash).value >= total
    ensures Change(parseFloat(uangCash), total) == parseFloat(uangCash).value - total
    ensures !CashFlagged(uangCash, total, parseFloat)
  {
  }

  /** Which currency input an edit comes from (`e.target.name`). */
  datatype CurrencyField = CostPriceInput | SellingPriceInput

  class FormState {
    var formData: Form
    var uangCash: string

    /** Stored money fields hold no dots and at most 15 characters. */
    predicate Valid()
      reads this
    {
      && '.' !in formData.costPrice && |formData.costPrice| <= 15
      && '.' !in formData.sellingPrice && |formData.sellingPrice| <= 15
      && '.' !in uangCash && |uangCash| <= 15
    }

    /** The form after a reset: every field empty. */
    constructor ()
      ensures Valid()
      ensures formData == Form("", "", "", "") && uangCash == ""
    {
      formData := Form("", "", "", "");
      uangCash := "";
    }

    /** `handleCurrencyChange`: a rejected edit leaves the stored value as it was. */
    method HandleCurrencyChange(field: CurrencyField, value: string, isNumeric: string -> bool)
      requires Valid()
      modifies this
      ensures Valid()
      ensures uangCash == old(uangCash)
      ensures var parsed := ParseRupiah(value);
        formData ==
          if !Accepted(parsed, isNumeric) then old(formData)
          else if field == CostPriceInput then old(formData).(costPrice := parsed)
          else old(formData).(sellingPrice := parsed)
    {
      var parsedValue := ParseRupiah(value);
      if isNumeric(parsedValue) && |parsedValue| <= 15 {
        if field == CostPriceInput {
          formData := formData.(costPrice := parsedValue);
        } else {
          formData := formData.(sellingPrice := parsedValue);
        }
      }
    }

    /** `handleUangCashChange`. */
    method HandleUangCashChange(value: string, isNumeric: string -> bool)
      requires Valid()
      modifies this
      ensures Valid()
      ensures formData == old(formData)
      ensures var parsed := ParseRupiah(value);
        uangCash == if Accepted(parsed, isNumeric) then parsed else old(uangCash)
    {
      var parsedValue := ParseRupiah(value);
      if isNumeric(parsedValue) && |parsedValue| <= 15 {
        uangCash := parsedValue;
      }
    }

    /**
     * `validate`: flags each empty field, and the cash when it is empty or
     * parses below the total (cash that does not parse compares false and is
     * not flagged); succeeds iff nothing is flagged.
     */
    method Validate(toNumber: string -> int, parseFloat: string -> Option<int>)
      returns (ok: bool, errors: set<Field>)
      ensures ProductName in errors <==> formData.productName == ""
      ensures Quantity in errors <==> formData.quantity == ""
      ensures CostPrice in errors <==> formData.costPrice == ""
      ensures SellingPrice in errors <==> formData.sellingPrice == ""
      ensures UangCash in errors <==> CashFlagged(uangCash, Total(formData, toNumber), parseFloat)
      ensures ok <==> errors == {}
      ensures ok ==> Total(formData, toNumber) == toNumber(formData.sellingPrice) * toNumber(formData.quantity)
      ensures ok && parseFloat(uangCash).Some? ==>
        Change(parseFloat(uangCash), Total(formData, toNumber)) ==
          parseFloat(uangCash).value - Total(formData, toNumber)
    {
      var tempErrors: set<Field> := {};
      if formData.productName == "" {
        tempErrors := tempErrors + {ProductName};
      }
      if formData.quantity == "" {
        tempErrors := tempErrors + {Quantity};
      }
      if formData.costPrice == "" {
        tempErrors := tempErrors + {CostPrice};
      }
      if formData.sellingPrice == "" {
        tempErrors := tempErrors + {SellingPrice};
      }
      var total := Total(formData, toNumber);
      var cash := parseFloat(uangCash);
      if uangCash == "" || (cash.Some? && cash.value < total) {
        tempErrors := tempErrors + {UangCash};
      }
      errors := tempErrors;
      ok := tempErrors == {};
    }
  }
}
