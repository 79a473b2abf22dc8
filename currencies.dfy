/**
 * Currency records and the lookup of a user-supplied currency code
 * (`isValidCurrencyCode` of cli.js). The supported list belongs to the
 * price library and is passed in.
 */
module Currencies {
  import opened Outcomes

  /** One entry of the price library's currency list. */
  datatype Currency = Currency(name: string, code: string, symbol: string)

  predicate IsLower(c: char) { 'a' <= c <= 'z' }

  /** `toUpperCase` on one character, for the ASCII letters. */
  function UpperChar(c: char): char {
    if IsLower(c) then (c as int - 'a' as int + 'A' as int) as char else c
  }

  function ToUpper(s: string): string {
    seq(|s|, i requires 0 <= i < |s| => UpperChar(s[i]))
  }

  /** Two inputs that differ only in the case of their letters. */
  predicate SameIgnoringCase(a: string, b: string) {
    |a| == |b| && forall i :: 0 <= i < |a| ==> UpperChar(a[i]) == UpperChar(b[i])
  }

  /** Index of the first currency, in list order, whose code is exactly `code`. */
  function FirstMatch(list: seq<Currency>, code: string): (r: Option<nat>)
    ensures r.Some? ==> r.value < |list| && list[r.value].code == code
    ensures r.Some? ==> forall j :: 0 <= j < r.value ==> list[j].code != code
    ensures r.None? ==> forall j :: 0 <= j < |list| ==> list[j].code != code
  {
    if list == [] then None
    else if list[0].code == code then Some(0)
    else match FirstMatch(list[1..], code)
      case None => None
      case Some(i) => Some(i + 1)
  }

  /**
   * The currency `isValidCurrencyCode` returns for `input`, or None where it
   * exits with status 1: the input is upper-cased, list codes are compared
   * verbatim and the first match wins.
   */
  function Lookup(list: seq<Currency>, input: string): (r: Option<Currency>)
    ensures r.Some? ==> r.value in list && r.value.code == ToUpper(input)
    ensures r.Some? ==> exists i :: 0 <= i < |list| && list[i] == r.value &&
                          forall j :: 0 <= j < i ==> list[j].code != ToUpper(input)
    ensures r.None? <==> forall j :: 0 <= j < |list| ==> list[j].code != ToUpper(input)
  {
    match FirstMatch(list, ToUpper(input))
    case None => None
    case Some(i) => Some(list[i])
  }

  /** The `for` loop with `break` of `isValidCurrencyCode`; None stands for the exit. */
  method IsValidCurrencyCode(currencies: seq<Currency>, currencyCode: string) returns (r: Option<Currency>)
    ensures r == Lookup(currencies, currencyCode)
  {
    var code := ToUpper(currencyCode);
    r := None;
    for i := 0 to |currencies|
      invariant forall j :: 0 <= j < i ==> currencies[j].code != code
    {
      if code == currencies[i].code {
        r := Some(currencies[i]);
        assert FirstMatch(currencies, code) == Some(i) by { FirstMatchIsFirst(currencies, code, i); }
        return;
      }
    }
  }

  /** The first index holding `code` is what FirstMatch reports. */
  lemma FirstMatchIsFirst(list: seq<Currency>, code: string, i: nat)
    requires i < |list| && list[i].code == code
    requires forall j :: 0 <= j < i ==> list[j].code != code
    ensures FirstMatch(list, code) == Some(i)
  {
    var r := FirstMatch(list, code);
    assert r.Some?;
  }

  /** Only the input is upper-cased, so its case never matters. */
  lemma {:induction false} LookupIgnoresCase(list: seq<Currency>, a: string, b: string)
    requires SameIgnoringCase(a, b)
    ensures Lookup(list, a) == Lookup(list, b)
  {
    assert ToUpper(a) == ToUpper(b);
  }

  /** "nok", "NOK" and "Nok" select the same currency (or all fail). */
  lemma NokSpellings(list: seq<Currency>)
    ensures Lookup(list, "nok") == Lookup(list, "NOK") == Lookup(list, "Nok")
  {
    LookupIgnoresCase(list, "nok", "NOK");
    LookupIgnoresCase(list, "Nok", "NOK");
  }

  /**
   * List codes are compared verbatim against an upper-cased input, so a code
   * holding a lower-case ASCII letter can never be selected.
   */
  lemma LookupNeverSelectsLowerCase(list: seq<Currency>, input: string)
    ensures Lookup(list, input).Some? ==>
              forall k :: 0 <= k < |Lookup(list, input).value.code| ==> !IsLower(Lookup(list, input).value.code[k])
  {
    var u := ToUpper(input);
    forall k | 0 <= k < |u| ensures !IsLower(u[k]) {
      assert u[k] == UpperChar(input[k]);
    }
  }

  /**
   * A listed code without lower-case letters, held by no earlier entry, is
   * found, whatever the case in which the user types it.
   */
  lemma {:induction false} LookupFindsListedCode(list: seq<Currency>, i: nat, input: string)
    requires i < |list|
    requires forall k :: 0 <= k < |list[i].code| ==> !IsLower(list[i].code[k])
    requires forall j :: 0 <= j < i ==> list[j].code != list[i].code
    requires SameIgnoringCase(input, list[i].code)
    ensures Lookup(list, input) == Some(list[i])
  {
    var c := list[i].code;
    assert ToUpper(c) == c by {
      forall k | 0 <= k < |c| ensures ToUpper(c)[k] == c[k] { }
    }
    LookupIgnoresCase(list, input, c);
    FirstMatchIsFirst(list, c, i);
  }
}
