/**
 * The option-symbol encoder and the registry key of the bridge worker.
 * A strike is carried as the text JavaScript's string conversion gives it,
 * since both the symbol and the key only ever interpolate it.
 */
module TosSymbol {
  import opened Text

  /** The one-letter type code: `'C'` for exactly `"CALL"`, `'P'` for anything else. */
  function TypeLetter(optionType: string): (c: char)
    ensures c == 'C' <==> optionType == "CALL"
    ensures c == 'C' || c == 'P'
  {
    if optionType == "CALL" then 'C' else 'P'
  }

  /** `year.slice(2)`: the year without its first two characters. */
  function ShortYear(year: string): (r: string)
    ensures |year| >= 2 ==> year == year[..2] + r
    ensures |year| < 2 ==> r == []
  {
    if |year| >= 2 then year[2..] else []
  }

  /**
   * The destructured element `[year, month, day][i]` of `expiration.split('-')`:
   * a missing element is `undefined`, which the template literal renders as text.
   */
  function DatePart(parts: seq<string>, i: nat): string {
    if i < |parts| then parts[i] else "undefined"
  }

  /** `buildTOSSymbol(expiration, strike, optionType)`. */
  function BuildTOSSymbol(expiration: string, strike: string, optionType: string): (symbol: string)
    ensures |symbol| >= 6 + |strike|
    ensures symbol[..5] == ".SPXW"
    ensures symbol[|symbol| - |strike|..] == strike
    ensures symbol[|symbol| - |strike| - 1] == (if optionType == "CALL" then 'C' else 'P')
  {
    var parts := Split(expiration, '-');
    ".SPXW" + ShortYear(parts[0]) + DatePart(parts, 1) + DatePart(parts, 2)
      + [TypeLetter(optionType)] + strike
  }

  /**
   * For a well-formed `YYYY-MM-DD` style date the symbol is `.SPXW`, the year
   * without its first two characters, the month, the day, the type letter and
   * the strike.
   */
  lemma SymbolOfDate(year: string, month: string, day: string, strike: string, optionType: string)
    requires |year| >= 2
    requires '-' !in year && '-' !in month && '-' !in day
    ensures BuildTOSSymbol(year + "-" + month + "-" + day, strike, optionType)
         == ".SPXW" + year[2..] + month + day + [TypeLetter(optionType)] + strike
  {
    var parts := [year, month, day];
    assert Join(parts, '-') == year + "-" + month + "-" + day by {
      assert parts[1..] == [month, day];
      assert parts[1..][1..] == [day];
      assert Join([month, day], '-') == month + "-" + day;
    }
    SplitJoin(parts, '-');
  }


  /** The worked example of the encoder. */
  lemma SymbolExample()
    ensures BuildTOSSymbol("2025-03-21", "5900", "CALL") == ".SPXW250321C5900"
  {
    var year, month, day := "2025", "03", "21";
    assert year + "-" + month + "-" + day == "2025-03-21";
    SymbolOfDate(year, month, day, "5900", "CALL");
    var symbol := ".SPXW" + year[2..] + month + day + [TypeLetter("CALL")] + "5900";
    assert symbol == ".SPXW250321C5900" by {
      assert year[2..] == "25";
      assert TypeLetter("CALL") == 'C';
    }
  }

  /** An expiration without any `-` gives `undefined` for both month and day. */
  lemma SymbolOfUndashedDate(expiration: string, strike: string, optionType: string)
    requires '-' !in expiration
    ensures BuildTOSSymbol(expiration, strike, optionType)
         == ".SPXW" + ShortYear(expiration) + "undefined" + "undefined" + [TypeLetter(optionType)] + strike
  {
    SplitWithoutSeparator(expiration, '-');
  }

  /**
   * The registry key `${expiration}:${strike}:${optionType}`: the three
   * fields in that order, each followed but the last by one `:`.
   */
  function SubscriptionKey(expiration: string, strike: string, optionType: string): (key: string)
    ensures |key| == |expiration| + |strike| + |optionType| + 2
    ensures key[..|expiration|] == expiration && key[|expiration|] == ':'
    ensures key[|expiration| + 1..|expiration| + 1 + |strike|] == strike
    ensures key[|expiration| + 1 + |strike|] == ':'
    ensures key[|expiration| + |strike| + 2..] == optionType
  {
    expiration + ":" + strike + ":" + optionType
  }

  /**
   * Keys identify subscriptions: when neither the expiration nor the strike
   * contains `:`, equal keys mean equal (expiration, strike, optionType).
   */
  lemma KeyInjective(e1: string, k1: string, t1: string, e2: string, k2: string, t2: string)
    requires ':' !in e1 && ':' !in k1 && ':' !in e2 && ':' !in k2
    requires SubscriptionKey(e1, k1, t1) == SubscriptionKey(e2, k2, t2)
    ensures e1 == e2 && k1 == k2 && t1 == t2
  {
    assert SubscriptionKey(e1, k1, t1) == e1 + [':'] + (k1 + [':'] + t1);
    assert SubscriptionKey(e2, k2, t2) == e2 + [':'] + (k2 + [':'] + t2);
    SplitAfterPiece(e1, ':', k1 + [':'] + t1);
    SplitAfterPiece(e2, ':', k2 + [':'] + t2);
    SplitAfterPiece(k1, ':', t1);
    SplitAfterPiece(k2, ':', t2);
    var s1 := Split(t1, ':');
    var s2 := Split(t2, ':');
    assert [e1] + ([k1] + s1) == [e2] + ([k2] + s2);
    assert e1 == e2 && k1 == k2;
    assert s1 == s2;
  }
}
