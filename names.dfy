/** The two string normalisations of the client: the canonical form of a chain
    name (`_clean_chain_name`) and the column name derived from a fees `dataType`. */
module Names {

  /** The characters `\s` matches in a Python str pattern (those for which `str.isspace()` holds). */
  predicate IsSpace(c: char) {
    || c == ' '
    || ('\t' <= c <= '\r')
    || ('\U{1C}' <= c <= '\U{1F}')
    || c == '\U{85}' || c == '\U{A0}' || c == '\U{1680}'
    || ('\U{2000}' <= c <= '\U{200A}')
    || c == '\U{2028}' || c == '\U{2029}' || c == '\U{202F}' || c == '\U{205F}' || c == '\U{3000}'
  }

  predicate IsUpper(c: char) {
    'A' <= c <= 'Z'
  }

  function LowerChar(c: char): char {
    if IsUpper(c) then (c as int + 32) as char else c
  }

  /** `str.lower()`, on the ASCII letters. */
  function Lower(s: string): string {
    seq(|s|, i requires 0 <= i < |s| => LowerChar(s[i]))
  }

  /** `re.sub(r'[-\s]', '_', s)`: each hyphen or whitespace character becomes one underscore. */
  function DashesToUnderscores(s: string): string {
    seq(|s|, i requires 0 <= i < |s| => if s[i] == '-' || IsSpace(s[i]) then '_' else s[i])
  }

  /** A name with no hyphen, no whitespace and no upper-case letter. */
  predicate IsCanonical(s: string) {
    forall i :: 0 <= i < |s| ==> s[i] != '-' && !IsSpace(s[i]) && !IsUpper(s[i])
  }

  /** `df['chain'].str.lower().str.replace(r'[-\s]', '_', regex=True)` applied to one name. */
  function CleanChainName(s: string): string {
    DashesToUnderscores(Lower(s))
  }

  /** The replacement is per character: the length is kept, each character is lower-cased
      or, when it is a hyphen or whitespace, becomes `_`, and the result is canonical. */
  lemma {:induction false} CleanChainNameChars(s: string)
    ensures |CleanChainName(s)| == |s|
    ensures forall i :: 0 <= i < |s| ==>
      CleanChainName(s)[i] == (if s[i] == '-' || IsSpace(s[i]) then '_' else LowerChar(s[i]))
    ensures IsCanonical(CleanChainName(s))
  {
  }

  /** Canonicalising twice is canonicalising once. */
  lemma {:induction false} CleanChainNameIdempotent(s: string)
    ensures CleanChainName(CleanChainName(s)) == CleanChainName(s)
  {
    var once := CleanChainName(s);
    var twice := CleanChainName(once);
    CleanChainNameChars(s);
    CleanChainNameChars(once);
    forall i | 0 <= i < |s| ensures twice[i] == once[i] {
      assert once[i] != '-' && !IsSpace(once[i]) && !IsUpper(once[i]);
    }
  }

  /** The canonical names are exactly the names canonicalisation leaves alone. */
  lemma {:induction false} CanonicalIffFixed(s: string)
    ensures CleanChainName(s) == s <==> IsCanonical(s)
  {
    CleanChainNameChars(s);
    if IsCanonical(s) {
      forall i | 0 <= i < |s| ensures CleanChainName(s)[i] == s[i] {
        assert s[i] != '-' && !IsSpace(s[i]) && !IsUpper(s[i]);
      }
    }
  }

  /** `pat` starts at position i of s. */
  predicate OccursAt(pat: string, s: string, i: nat) {
    i + |pat| <= |s| && s[i..i + |pat|] == pat
  }

  /** `pat` does not start at any position of s. */
  ghost predicate NoOccurrence(pat: string, s: string) {
    forall i: nat :: !OccursAt(pat, s, i)
  }

  /** Python's `s.replace(old, new)` for a non-empty `old`: every non-overlapping
      occurrence, scanned from the left, is replaced. */
  function Replace(s: string, pat: string, rep: string): string
    requires |pat| > 0
    decreases |s|
  {
    if |s| < |pat| then s
    else if s[..|pat|] == pat then rep + Replace(s[|pat|..], pat, rep)
    else [s[0]] + Replace(s[1..], pat, rep)
  }

  lemma {:induction false} ReplaceAbsent(s: string, pat: string, rep: string)
    requires |pat| > 0 && NoOccurrence(pat, s)
    ensures Replace(s, pat, rep) == s
  {
    if |s| >= |pat| {
      assert !OccursAt(pat, s, 0);
      assert s[..|pat|] == s[0..|pat|];
      var tail := s[1..];
      assert NoOccurrence(pat, tail) by {
        forall i: nat ensures !OccursAt(pat, tail, i) {
          assert !OccursAt(pat, s, i + 1);
          if i + |pat| <= |tail| {
            assert tail[i..i + |pat|] == s[i + 1..i + 1 + |pat|];
          }
        }
      }
      ReplaceAbsent(tail, pat, rep);
      assert [s[0]] + tail == s;
    }
  }

  /** A string none of whose characters can begin `pat` contains no occurrence of it. */
  lemma {:induction false} NoOccurrenceByFirstChar(pat: string, s: string)
    requires |pat| > 0 && forall i :: 0 <= i < |s| ==> s[i] != pat[0]
    ensures NoOccurrence(pat, s)
  {
    forall i: nat ensures !OccursAt(pat, s, i) {
      if i + |pat| <= |s| {
        assert s[i..i + |pat|][0] == s[i];
      }
    }
  }

  /** An occurrence in a + b lies inside b when no character of a can begin one. */
  lemma {:induction false} NoOccurrenceAppend(pat: string, a: string, b: string)
    requires |pat| > 0 && NoOccurrence(pat, b)
    requires forall i :: 0 <= i < |a| ==> a[i] != pat[0]
    ensures NoOccurrence(pat, a + b)
  {
    var s := a + b;
    forall i: nat ensures !OccursAt(pat, s, i) {
      if i + |pat| <= |s| {
        if i < |a| {
          assert s[i..i + |pat|][0] == a[i];
        } else {
          assert !OccursAt(pat, b, i - |a|);
          assert s[i..i + |pat|] == b[i - |a|..i - |a| + |pat|];
        }
      }
    }
  }

  lemma {:induction false} LowerAppend(a: string, b: string)
    ensures Lower(a + b) == Lower(a) + Lower(b)
  {
  }

  /** `dataType.replace("daily", "daily_").replace("total", "total_").lower()`:
      the name of the value column of the fees endpoints. */
  function ColumnName(dataType: string): (r: string)
    ensures forall i :: 0 <= i < |r| ==> !IsUpper(r[i])
  {
    Lower(Replace(Replace(dataType, "daily", "daily_"), "total", "total_"))
  }

  /** The `daily` case: the first replacement inserts the underscore, the second finds nothing. */
  lemma {:induction false} ColumnNameOfDaily(rest: string)
    requires NoOccurrence("daily", rest) && NoOccurrence("total", rest)
    ensures ColumnName("daily" + rest) == "daily_" + Lower(rest)
  {
    var s := "daily" + rest;
    assert s[..5] == "daily" && s[5..] == rest;
    ReplaceAbsent(rest, "daily", "daily_");
    var once := "daily_" + rest;
    assert Replace(s, "daily", "daily_") == once;
    NoOccurrenceAppend("total", "daily_", rest);
    ReplaceAbsent(once, "total", "total_");
    LowerAppend("daily_", rest);
    assert ColumnName(s) == Lower(once);
  }

  /** The `total` case: the first replacement finds nothing, the second inserts the underscore. */
  lemma {:induction false} ColumnNameOfTotal(rest: string)
    requires NoOccurrence("daily", rest) && NoOccurrence("total", rest)
    ensures ColumnName("total" + rest) == "total_" + Lower(rest)
  {
    var s := "total" + rest;
    assert s[..5] == "total" && s[5..] == rest;
    NoOccurrenceAppend("daily", "total", rest);
    ReplaceAbsent(s, "daily", "daily_");
    ReplaceAbsent(rest, "total", "total_");
    var once := "total_" + rest;
    assert Replace(s, "total", "total_") == once;
    LowerAppend("total_", rest);
    assert ColumnName(s) == Lower(once);
  }

  /** For a data type made of the prefix `daily` or `total` and a rest that mentions
      neither, the column name is the prefix, an underscore, and the rest in lower case. */
  lemma {:induction false} ColumnNameOfPrefixed(prefix: string, rest: string)
    requires prefix == "daily" || prefix == "total"
    requires NoOccurrence("daily", rest) && NoOccurrence("total", rest)
    ensures ColumnName(prefix + rest) == prefix + "_" + Lower(rest)
  {
    if prefix == "daily" {
      ColumnNameOfDaily(rest);
    } else {
      ColumnNameOfTotal(rest);
    }
  }

  /** The column of a documented data type `prefix + rest`, where `rest` is capitalised
      and so cannot begin `daily` or `total`. */
  lemma {:induction false} ColumnNameOfDocumented(prefix: string, rest: string)
    requires prefix == "daily" || prefix == "total"
    requires forall i :: 0 <= i < |rest| ==> rest[i] != 'd' && rest[i] != 't'
    ensures ColumnName(prefix + rest) == prefix + "_" + Lower(rest)
  {
    NoOccurrenceByFirstChar("daily", rest);
    NoOccurrenceByFirstChar("total", rest);
    ColumnNameOfPrefixed(prefix, rest);
  }

  /** The four data types the fees endpoints document (`dailyFees`, the default,
      `dailyRevenue`, `totalFees`, `totalRevenue`) name the columns `daily_fees`,
      `daily_revenue`, `total_fees` and `total_revenue`. */
  lemma {:induction false} DocumentedColumnName(prefix: string, rest: string)
    requires prefix == "daily" || prefix == "total"
    requires rest == "Fees" || rest == "Revenue"
    ensures ColumnName(prefix + rest) == prefix + "_" + (if rest == "Fees" then "fees" else "revenue")
  {
    assert Lower(rest) == if rest == "Fees" then "fees" else "revenue";
    ColumnNameOfDocumented(prefix, rest);
  }
}
