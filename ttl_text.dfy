/**
 * The small string rules used when the plugin describes itself in Turtle:
 * decimal numbering, character replacement, the display name of a
 * parameter and the check for a valid abbreviation.
 */
module TtlText {
  import opened Common

  //----------------------------------------------------------------------
  // Decimal numbering

  predicate IsDigit(c: char)
  {
    '0' <= c <= '9'
  }

  function DigitChar(d: nat): (c: char)
    requires d < 10
    ensures IsDigit(c) && c as int - '0' as int == d
  {
    (48 + d) as char
  }

  /** The decimal representation of `n`, most significant digit first. */
  function NatToString(n: nat): (r: string)
    ensures |r| >= 1 && forall i :: 0 <= i < |r| ==> IsDigit(r[i])
    decreases n
  {
    if n < 10 then [DigitChar(n)] else NatToString(n / 10) + [DigitChar(n % 10)]
  }

  function DigitValue(c: char): (d: nat)
    requires IsDigit(c)
    ensures d < 10
  {
    c as int - '0' as int
  }

  /** The value of a string of decimal digits. */
  function ParseNat(s: string): nat
    requires forall i :: 0 <= i < |s| ==> IsDigit(s[i])
  {
    if |s| == 0 then 0 else ParseNat(s[..|s| - 1]) * 10 + DigitValue(s[|s| - 1])
  }

  /** Reading the digits back gives the number. */
  lemma {:induction false} NatToStringRoundTrip(n: nat)
    ensures ParseNat(NatToString(n)) == n
    decreases n
  {
    if n >= 10 {
      NatToStringRoundTrip(n / 10);
      var s := NatToString(n);
      assert s[..|s| - 1] == NatToString(n / 10);
    }
  }

  /** Different numbers are written differently. */
  lemma NatToStringInjective(a: nat, b: nat)
    requires NatToString(a) == NatToString(b)
    ensures a == b
  {
    NatToStringRoundTrip(a);
    NatToStringRoundTrip(b);
  }

  //----------------------------------------------------------------------
  // Character replacement

  /** `s` with every `from` replaced by `to`. */
  function Replace(s: string, from: char, to: char): (r: string)
    ensures |r| == |s|
  {
    if |s| == 0 then [] else Replace(s[..|s| - 1], from, to) + [if s[|s| - 1] == from then to else s[|s| - 1]]
  }

  /** Each character is replaced or kept on its own. */
  lemma {:induction false} ReplaceAt(s: string, from: char, to: char)
    ensures forall i :: 0 <= i < |s| ==> Replace(s, from, to)[i] == if s[i] == from then to else s[i]
  {
    if |s| > 0 {
      ReplaceAt(s[..|s| - 1], from, to);
    }
  }

  /** After the replacement `from` no longer occurs, and a second replacement changes nothing. */
  lemma ReplaceRemoves(s: string, from: char, to: char)
    requires from != to
    ensures from !in Replace(s, from, to)
    ensures Replace(Replace(s, from, to), from, to) == Replace(s, from, to)
  {
    var r := Replace(s, from, to);
    ReplaceAt(s, from, to);
    ReplaceAt(r, from, to);
    forall i | 0 <= i < |r| ensures r[i] != from {
    }
  }

  //----------------------------------------------------------------------
  // Parameter names

  /** How many characters of a parameter's name the host is offered. */
  const NameLength: nat := 32

  /** The engine's name for a parameter, cut to `NameLength` characters. */
  function ShortName(name: string): (r: string)
    ensures |r| <= NameLength && r <= name
    ensures |name| <= NameLength ==> r == name
  {
    if |name| <= NameLength then name else name[..NameLength]
  }

  /** The numbered fallback name contains no double quote. */
  lemma NumberedNameUnquoted(slot: nat)
    ensures '"' !in "Parameter " + NatToString(slot + 1)
  {
    var named := "Parameter " + NatToString(slot + 1);
    forall i | 0 <= i < |named| ensures named[i] != '"' {
      if i >= 10 {
        assert named[i] == NatToString(slot + 1)[i - 10];
      }
    }
  }

  /** Replacing a character that does not occur changes nothing. */
  lemma ReplaceAbsent(s: string, from: char, to: char)
    requires from !in s
    ensures Replace(s, from, to) == s
  {
    var r := Replace(s, from, to);
    ReplaceAt(s, from, to);
    forall i | 0 <= i < |s| ensures r[i] == s[i] {
    }
  }

  /**
   * The name under which control slot `slot` is described: the engine's
   * short name, or "Parameter N" (N counting slots from one) when that is
   * empty, with double quotes turned into single quotes.
   */
  function DisplayName(name: string, slot: nat): (r: string)
    ensures |r| > 0 && '"' !in r
    ensures ShortName(name) != "" ==> r == Replace(ShortName(name), '"', '\'')
    ensures ShortName(name) == "" ==> r == "Parameter " + NatToString(slot + 1)
  {
    var shown := ShortName(name);
    var named := if shown == "" then "Parameter " + NatToString(slot + 1) else shown;
    ReplaceRemoves(named, '"', '\'');
    NumberedNameUnquoted(slot);
    if shown == "" then
      ReplaceAbsent(named, '"', '\'');
      Replace(named, '"', '\'')
    else
      Replace(named, '"', '\'')
  }

  //----------------------------------------------------------------------
  // Abbreviations

  /** The character at `i`, or the terminating NUL at the end of the string. */
  function CharAt(s: string, i: nat): char
    requires i <= |s|
  {
    if i < |s| then s[i] else '\0'
  }

  predicate IsUpper(c: char)
  {
    'A' <= c <= 'Z'
  }

  /** A character allowed in an abbreviation: an upper-case letter other than a quote, or the terminator. */
  predicate ValidAbbreviationChar(c: char)
  {
    c == '\0' || (IsUpper(c) && c != '"')
  }

  /** A name usable as the plugin's abbreviation: two or three valid characters. */
  predicate IsAbbreviation(s: string)
  {
    2 <= |s| <= 3
    && ValidAbbreviationChar(CharAt(s, 0))
    && ValidAbbreviationChar(CharAt(s, 1))
    && ValidAbbreviationChar(CharAt(s, 2))
  }

  /** The first of `names` usable as an abbreviation, if any. */
  function FirstAbbreviation(names: seq<string>): (r: Option<string>)
    ensures r.Some? ==> r.value in names && IsAbbreviation(r.value)
  {
    if |names| == 0 then None
    else if IsAbbreviation(names[0]) then Some(names[0])
    else FirstAbbreviation(names[1..])
  }

  /** No name before position `i` is usable. */
  predicate IsFirstUsable(names: seq<string>, i: nat)
    requires i <= |names|
  {
    forall j :: 0 <= j < i ==> !IsAbbreviation(names[j])
  }

  /**
   * The choice is the first usable name: every name before it is
   * unusable, and there is no choice exactly when no name is usable.
   */
  lemma {:induction false} FirstAbbreviationIsFirst(names: seq<string>)
    ensures var r := FirstAbbreviation(names);
      r.None? <==> forall i :: 0 <= i < |names| ==> !IsAbbreviation(names[i])
    ensures var r := FirstAbbreviation(names);
      r.Some? ==> exists i :: 0 <= i < |names| && names[i] == r.value && IsFirstUsable(names, i)
  {
    if |names| > 0 && !IsAbbreviation(names[0]) {
      var tail := names[1..];
      FirstAbbreviationIsFirst(tail);
      var r := FirstAbbreviation(tail);
      if r.Some? {
        var i :| 0 <= i < |tail| && tail[i] == r.value && IsFirstUsable(tail, i);
        assert names[i + 1] == r.value;
        forall j | 0 <= j < i + 1 ensures !IsAbbreviation(names[j]) {
          if j > 0 {
            assert names[j] == tail[j - 1];
          }
        }
        assert IsFirstUsable(names, i + 1);
      } else {
        forall i | 0 <= i < |names| ensures !IsAbbreviation(names[i]) {
          if i > 0 {
            assert names[i] == tail[i - 1];
          }
        }
      }
    } else if |names| > 0 {
      assert names[0] == FirstAbbreviation(names).value && IsFirstUsable(names, 0);
    }
  }
}
