/** The read/write classifier `is_update`: a query is a read exactly when
    its first six characters, upper-cased, spell SELECT. Nothing is trimmed
    first. */
module Classifier {

  const Select: string := "SELECT"

  /** Number of characters `substring(0, 6)` keeps. */
  const KeywordLength: nat := 6

  /** LATIN SMALL LETTER LONG S, which JavaScript upper-cases to 'S'. */
  const LongS: char := '\U{017F}'

  /** JavaScript's `toUpperCase` on one character, for the case mappings
      that can produce a letter of SELECT: 'a'..'z' and the long s. Every
      other character is kept as it is. No other character upper-cases to
      one of S, E, L, C, T, and no mapping to several characters yields two
      consecutive letters of SELECT (SE, EL, LE, EC or CT): 'ß' gives "SS",
      'ﬆ' gives "ST". So keeping those characters unchanged gives the same
      comparison with SELECT. */
  function UpperChar(c: char): char
  {
    if 'a' <= c <= 'z' then (c as int - 32) as char
    else if c == LongS then 'S'
    else c
  }

  /** Lower-casing of the ASCII letters, used to state case-insensitivity. */
  function LowerChar(c: char): char
  {
    if 'A' <= c <= 'Z' then (c as int + 32) as char else c
  }

  function UpperCase(s: string): string
  {
    seq(|s|, i requires 0 <= i < |s| => UpperChar(s[i]))
  }

  function LowerCase(s: string): string
  {
    seq(|s|, i requires 0 <= i < |s| => LowerChar(s[i]))
  }

  /** `str.substring(0, 6)`: the whole string when it is shorter. */
  function Prefix(s: string): (p: string)
    ensures |p| <= KeywordLength && p <= s
    ensures |s| >= KeywordLength ==> |p| == KeywordLength
    ensures |s| < KeywordLength ==> p == s
  {
    if |s| < KeywordLength then s else s[..KeywordLength]
  }

  /** `is_update(str)`: true unless the upper-cased six-character prefix is
      exactly "SELECT". */
  predicate IsUpdate(s: string)
  {
    UpperCase(Prefix(s)) != Select
  }

  /** The characters that may stand at position `i` of a read query. */
  predicate SelectLetter(c: char, i: nat)
    requires i < KeywordLength
  {
    match i
    case 0 => c == 's' || c == 'S' || c == LongS
    case 1 => c == 'e' || c == 'E'
    case 2 => c == 'l' || c == 'L'
    case 3 => c == 'e' || c == 'E'
    case 4 => c == 'c' || c == 'C'
    case 5 => c == 't' || c == 'T'
  }

  lemma UpperCharIsSelectLetter(c: char, i: nat)
    requires i < KeywordLength
    ensures UpperChar(c) == Select[i] <==> SelectLetter(c, i)
  {
  }

  /** Independent description of the reads: a query is routed as a read
      exactly when it has at least six characters and they are, one by one,
      an upper- or lower-case letter of SELECT (or the long s in front). */
  lemma {:induction false} IsReadIff(s: string)
    ensures !IsUpdate(s) <==>
      |s| >= KeywordLength && forall i :: 0 <= i < KeywordLength ==> SelectLetter(s[i], i)
  {
    var p := Prefix(s);
    if |s| >= KeywordLength {
      forall i | 0 <= i < KeywordLength
        ensures UpperChar(s[i]) == Select[i] <==> SelectLetter(s[i], i)
      {
        UpperCharIsSelectLetter(s[i], i);
      }
      if forall i :: 0 <= i < KeywordLength ==> SelectLetter(s[i], i) {
        assert UpperCase(p) == Select;
      } else {
        var j :| 0 <= j < KeywordLength && !SelectLetter(s[j], j);
        assert UpperCase(p)[j] != Select[j];
      }
    } else {
      assert |UpperCase(p)| != |Select|;
    }
  }

  /** Classification ignores letter case: lower-casing or upper-casing the
      whole query never moves it to the other side. */
  lemma {:induction false} CaseInsensitive(s: string)
    ensures IsUpdate(LowerCase(s)) == IsUpdate(s)
    ensures IsUpdate(UpperCase(s)) == IsUpdate(s)
  {
    var lo, up := LowerCase(s), UpperCase(s);
    assert Prefix(lo) == LowerCase(Prefix(s));
    assert Prefix(up) == UpperCase(Prefix(s));
    assert UpperCase(Prefix(lo)) == UpperCase(Prefix(s)) by {
      forall i | 0 <= i < |Prefix(s)|
        ensures UpperChar(LowerChar(Prefix(s)[i])) == UpperChar(Prefix(s)[i])
      {
      }
    }
    assert UpperCase(Prefix(up)) == UpperCase(Prefix(s)) by {
      forall i | 0 <= i < |Prefix(s)|
        ensures UpperChar(UpperChar(Prefix(s)[i])) == UpperChar(Prefix(s)[i])
      {
      }
    }
  }

  /** There is no trimming: a query shorter than six characters, or one
      whose first character is not a letter of SELECT (a space, a tab, a
      newline, an opening parenthesis or comment), is an update. */
  lemma {:induction false} NoTrimming(s: string)
    requires |s| < KeywordLength || (s != [] && !SelectLetter(s[0], 0))
    ensures IsUpdate(s)
  {
    IsReadIff(s);
  }

  /** The queries of the repository's tests are reads, in either case;
      a leading space or a missing character makes a query an update. */
  lemma Examples()
    ensures !IsUpdate("select version()")
    ensures !IsUpdate("SELECT version()")
    ensures !IsUpdate("ſelect 1")
    ensures IsUpdate(" SELECT version()")
    ensures IsUpdate("SELEC")
    ensures IsUpdate("")
    ensures IsUpdate("INSERT INTO t VALUES (1)")
  {
    IsReadIff("select version()");
    IsReadIff("SELECT version()");
    IsReadIff("ſelect 1");
    NoTrimming(" SELECT version()");
    NoTrimming("SELEC");
    NoTrimming("");
    NoTrimming("INSERT INTO t VALUES (1)");
  }
}
