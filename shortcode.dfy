/**
 * The random short-code generator of pkg/shortcode: a fixed alphabet of 36
 * symbols and a generator that fills a buffer of the configured length with
 * symbols picked by index. The random source is injected: each call receives
 * the indices that `rand.Intn(36)` would have drawn, one per position.
 */
module Shortcode {

  /** The alphabet, in the order the source lists it. */
  const Chars: string := "1234567890abcdefghijklmnopqrstuvwxyz"

  predicate IsDigit(c: char) { '0' <= c <= '9' }
  predicate IsLower(c: char) { 'a' <= c <= 'z' }
  predicate IsUpper(c: char) { 'A' <= c <= 'Z' }

  /** The character class of the request validator's `alphanum` tag. */
  predicate IsAlphanumeric(c: char) { IsDigit(c) || IsLower(c) || IsUpper(c) }

  /** The code point of the symbol at position k of the alphabet. */
  function SymbolCode(k: int): int
  {
    if k < 9 then '1' as int + k else if k == 9 then '0' as int else 'a' as int + (k - 10)
  }

  /** Position k of the alphabet, written out by its code point. */
  lemma CharsAt(k: int)
    requires 0 <= k < 36
    ensures Chars[k] as int == SymbolCode(k)
  {
    var closed := seq(36, i requires 0 <= i < 36 => SymbolCode(i) as char);
    assert Chars == closed;
  }

  /** The alphabet has exactly 36 symbols, all distinct. */
  lemma CharsDistinct()
    ensures |Chars| == 36
    ensures forall i, j :: 0 <= i < j < |Chars| ==> Chars[i] != Chars[j]
  {
    forall i, j | 0 <= i < j < |Chars| ensures Chars[i] != Chars[j] {
      CharsAt(i);
      CharsAt(j);
    }
  }

  /** The alphabet is exactly the ten digits and the lower-case letters. */
  lemma CharsAreDigitsAndLetters(c: char)
    ensures c in Chars <==> IsDigit(c) || IsLower(c)
  {
    if c in Chars {
      var k :| 0 <= k < |Chars| && Chars[k] == c;
      CharsAt(k);
    }
    if IsDigit(c) {
      var k := if c == '0' then 9 else c as int - '1' as int;
      CharsAt(k);
      assert Chars[k] == c;
    } else if IsLower(c) {
      var k := 10 + (c as int - 'a' as int);
      CharsAt(k);
      assert Chars[k] == c;
    }
  }

  /** Every generated symbol is in the character class custom codes are validated against. */
  lemma CharsAlphanumeric(c: char)
    requires c in Chars
    ensures IsAlphanumeric(c)
  {
    CharsAreDigitsAndLetters(c);
  }

  /** Every index is one that `rand.Intn(len(chars))` can return. */
  predicate AreDraws(ks: seq<int>)
  {
    forall i :: 0 <= i < |ks| ==> 0 <= ks[i] < |Chars|
  }

  /** The code spelled by a sequence of drawn indices: position i is `Chars[ks[i]]`. */
  function Spell(ks: seq<int>): (s: string)
    requires AreDraws(ks)
    ensures |s| == |ks|
    ensures forall i :: 0 <= i < |ks| ==> s[i] == Chars[ks[i]] && s[i] in Chars
  {
    if ks == [] then [] else [Chars[ks[0]]] + Spell(ks[1..])
  }

  /** The position of a symbol in the alphabet. */
  function IndexOf(c: char): (k: int)
    requires c in Chars
    ensures 0 <= k < |Chars| && Chars[k] == c
  {
    Position(Chars, c)
  }

  function Position(s: string, c: char): (k: nat)
    requires c in s
    ensures k < |s| && s[k] == c
  {
    if s[0] == c then 0 else 1 + Position(s[1..], c)
  }

  /** The indices that spell a code over the alphabet. */
  function Indices(s: string): (ks: seq<int>)
    requires forall i :: 0 <= i < |s| ==> s[i] in Chars
    ensures |ks| == |s| && AreDraws(ks)
  {
    seq(|s|, i requires 0 <= i < |s| => IndexOf(s[i]))
  }

  /** A code of the given length over the alphabet. */
  predicate WellFormed(s: string, length: int)
  {
    |s| == length && forall i :: 0 <= i < |s| ==> s[i] in Chars
  }

  /** Every code of the right shape is spelled by some draws: Indices inverts Spell. */
  lemma SpellIndices(s: string)
    requires forall i :: 0 <= i < |s| ==> s[i] in Chars
    ensures Spell(Indices(s)) == s
  {
  }

  /** Different draws spell different codes: Spell inverts Indices. */
  lemma IndicesSpell(ks: seq<int>)
    requires AreDraws(ks)
    ensures Indices(Spell(ks)) == ks
  {
    CharsDistinct();
    var s := Spell(ks);
    forall i | 0 <= i < |ks| ensures Indices(s)[i] == ks[i] {
      var k := IndexOf(s[i]);
      assert Chars[k] == Chars[ks[i]];
    }
  }

  /** Generated codes pass the validator's alphanumeric class, like custom codes. */
  lemma {:induction false} SpellAlphanumeric(ks: seq<int>)
    requires AreDraws(ks)
    ensures forall i :: 0 <= i < |ks| ==> IsAlphanumeric(Spell(ks)[i])
  {
    forall i | 0 <= i < |ks| ensures IsAlphanumeric(Spell(ks)[i]) {
      CharsAlphanumeric(Spell(ks)[i]);
    }
  }

  /** The generator object: only its configured length. */
  class ShortCode {
    const length: int

    /** NewShortCode: stores the configured length and nothing else. */
    constructor (n: int)
      ensures length == n
    {
      length := n;
    }

    /**
     * Fills a fresh buffer of `length` symbols, position i taking the symbol
     * at the i-th drawn index. `make` refuses a negative length, hence the
     * precondition.
     */
    method GenerateShortCode(draws: seq<int>) returns (code: string)
      requires length >= 0
      requires |draws| == length
      requires AreDraws(draws)
      ensures code == Spell(draws)
      ensures WellFormed(code, length)
    {
      var result := new char[length];
      for i := 0 to length
        invariant forall j :: 0 <= j < i ==> result[j] == Chars[draws[j]]
      {
        result[i] := Chars[draws[i]];
      }
      code := result[..];
      assert code == Spell(draws);
    }
  }
}
