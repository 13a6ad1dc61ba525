/** The text search repeated in Management, Catalog, Report and SearchBar: a part matches
    when its lowered name or lowered description contains the lowered query, and a
    blank query (empty once trimmed) selects every part. */
module TextFilter {
  import opened Parts
  import Seqs

  /** ASCII lowering, standing in for `toLowerCase`. */
  function LowerChar(c: char): char
  {
    if 'A' <= c <= 'Z' then (c as int + 32) as char else c
  }

  function Lower(s: string): string
  {
    seq(|s|, i requires 0 <= i < |s| => LowerChar(s[i]))
  }

  /** Lowering twice is lowering once. */
  lemma LowerIdempotent(s: string)
    ensures Lower(Lower(s)) == Lower(s)
  {
  }

  /** The characters `String.prototype.trim` removes: white space and line terminators. */
  predicate IsWhitespace(c: char)
  {
    c == '\t' || c == '\n' || c == '\U{B}' || c == '\U{C}' || c == '\r' || c == ' '
    || c == '\U{A0}' || c == '\U{1680}' || ('\U{2000}' <= c <= '\U{200A}')
    || c == '\U{2028}' || c == '\U{2029}' || c == '\U{202F}' || c == '\U{205F}'
    || c == '\U{3000}' || c == '\U{FEFF}'
  }

  function TrimStart(s: string): string
  {
    if s != [] && IsWhitespace(s[0]) then TrimStart(s[1..]) else s
  }

  function TrimEnd(s: string): string
  {
    if s != [] && IsWhitespace(s[|s| - 1]) then TrimEnd(s[..|s| - 1]) else s
  }

  function Trim(s: string): string
  {
    TrimEnd(TrimStart(s))
  }

  /** `!term.trim()`: the trimmed query is the empty string. */
  predicate IsBlank(term: string)
  {
    Trim(term) == ""
  }

  /** A query is blank exactly when every one of its characters is white space. */
  lemma BlankIffAllWhitespace(term: string)
    ensures IsBlank(term) <==> forall i :: 0 <= i < |term| ==> IsWhitespace(term[i])
  {
    TrimStartAllWhitespace(term);
    TrimEndAllWhitespace(TrimStart(term));
  }

  lemma {:induction false} TrimStartAllWhitespace(s: string)
    ensures TrimStart(s) == "" <==> forall i :: 0 <= i < |s| ==> IsWhitespace(s[i])
    ensures TrimStart(s) != "" ==> !IsWhitespace(TrimStart(s)[0])
  {
    if s != [] && IsWhitespace(s[0]) {
      TrimStartAllWhitespace(s[1..]);
      if TrimStart(s[1..]) == "" {
        forall i | 0 <= i < |s| ensures IsWhitespace(s[i]) {
          if i > 0 { assert s[i] == s[1..][i - 1]; }
        }
      } else {
        var j :| 0 <= j < |s[1..]| && !IsWhitespace(s[1..][j]);
        assert !IsWhitespace(s[j + 1]);
      }
    }
  }

  lemma {:induction false} TrimEndAllWhitespace(s: string)
    requires s == "" || !IsWhitespace(s[0])
    ensures TrimEnd(s) == "" <==> s == ""
  {
    if s != [] && IsWhitespace(s[|s| - 1]) {
      assert |s| > 1;
      TrimEndAllWhitespace(s[..|s| - 1]);
    }
  }

  /** `s.startsWith(p)`. */
  predicate StartsWith(s: string, p: string)
  {
    |p| <= |s| && s[..|p|] == p
  }

  /** `sub` occurs in `s` starting at position `i`. */
  predicate OccursAt(s: string, sub: string, i: int)
  {
    0 <= i <= |s| - |sub| && s[i..i + |sub|] == sub
  }

  /** `s.includes(sub)`: `sub` starts at some position of `s`. */
  predicate Includes(s: string, sub: string)
    decreases |s|
  {
    StartsWith(s, sub) || (s != [] && Includes(s[1..], sub))
  }

  /** `Includes` agrees with the positional definition of a substring. */
  lemma {:induction false} IncludesIff(s: string, sub: string)
    ensures Includes(s, sub) <==> exists i :: OccursAt(s, sub, i)
    decreases |s|
  {
    if StartsWith(s, sub) {
      assert OccursAt(s, sub, 0);
    } else if s != [] {
      IncludesIff(s[1..], sub);
      forall i | OccursAt(s[1..], sub, i) ensures OccursAt(s, sub, i + 1) {
        assert s[i + 1..i + 1 + |sub|] == s[1..][i..i + |sub|];
      }
      forall i | OccursAt(s, sub, i) ensures OccursAt(s[1..], sub, i - 1) {
        assert i != 0;
        assert s[1..][i - 1..i - 1 + |sub|] == s[i..i + |sub|];
      }
    }
  }

  /** The per-part test inside `parts.filter(...)`. */
  predicate Matches(p: Part, term: string)
  {
    Includes(Lower(p.name), Lower(term)) || Includes(Lower(p.description), Lower(term))
  }

  /** A part always matches a search for its own name. */
  lemma NameIncludesItself(p: Part)
    ensures Matches(p, p.name)
  {
    assert Lower(p.name)[..|Lower(p.name)|] == Lower(p.name);
  }

  function MatchesTerm(term: string): Part -> bool
  {
    p => Matches(p, term)
  }

  /** Every part that matches a (non-blank) query, in list order. */
  function Matching(parts: seq<Part>, term: string): seq<Part>
  {
    Seqs.Filter(MatchesTerm(term), parts)
  }

  /** The list a search handler stores: everything for a blank query, the matches otherwise. */
  function Search(parts: seq<Part>, term: string): seq<Part>
  {
    if IsBlank(term) then parts else Matching(parts, term)
  }

  /** The matches are exactly the matching members of the list, in their original order. */
  lemma MatchingSpec(parts: seq<Part>, term: string)
    ensures Seqs.IsSubsequence(Matching(parts, term), parts)
    ensures forall x :: x in Matching(parts, term) <==> x in parts && Matches(x, term)
    ensures forall x :: multiset(Matching(parts, term))[x] == if Matches(x, term) then multiset(parts)[x] else 0
  {
    Seqs.FilterIsSubsequence(MatchesTerm(term), parts);
    Seqs.FilterMultiset(MatchesTerm(term), parts);
    forall x ensures x in Matching(parts, term) <==> x in parts && Matches(x, term) {
      Seqs.FilterMembers(MatchesTerm(term), parts, x);
    }
  }

  /** A blank query keeps the list as it is; any other query keeps exactly the matching parts, in order. */
  lemma SearchSpec(parts: seq<Part>, term: string)
    ensures IsBlank(term) ==> Search(parts, term) == parts
    ensures Seqs.IsSubsequence(Search(parts, term), parts)
    ensures forall x :: x in Search(parts, term) <==> x in parts && (IsBlank(term) || Matches(x, term))
    ensures forall x ::
              multiset(Search(parts, term))[x] == if IsBlank(term) || Matches(x, term) then multiset(parts)[x] else 0
  {
    if IsBlank(term) {
      SubsequenceReflexive(parts);
    } else {
      MatchingSpec(parts, term);
    }
  }

  lemma {:induction false} SubsequenceReflexive(s: seq<Part>)
    ensures Seqs.IsSubsequence(s, s)
  {
    if s != [] {
      SubsequenceReflexive(s[1..]);
    }
  }

  /** The query's letter case does not matter: searching for a query and for its lowered form agree. */
  lemma SearchIgnoresQueryCase(parts: seq<Part>, term: string)
    ensures Search(parts, term) == Search(parts, Lower(term))
  {
    LowerIdempotent(term);
    BlankIffAllWhitespace(term);
    BlankIffAllWhitespace(Lower(term));
    assert forall i :: 0 <= i < |term| ==> (IsWhitespace(term[i]) <==> IsWhitespace(Lower(term)[i]));
    Seqs.FilterAgreeing(MatchesTerm(term), MatchesTerm(Lower(term)), parts);
  }

  /** A string none of whose characters is the first character of `sub` does not include `sub`. */
  lemma {:induction false} ExcludesWithoutFirstChar(s: string, sub: string)
    requires sub != [] && forall i :: 0 <= i < |s| ==> s[i] != sub[0]
    ensures !Includes(s, sub)
  {
    if s != [] {
      assert forall i :: 0 <= i < |s[1..]| ==> s[1..][i] == s[i + 1];
      ExcludesWithoutFirstChar(s[1..], sub);
      if |sub| <= |s| {
        assert s[..|sub|][0] == s[0];
      }
    }
  }

  /** "filt" is not blank and is already lower case. */
  lemma FiltIsPlainQuery()
    ensures !IsBlank("filt") && Lower("filt") == "filt"
  {
    BlankIffAllWhitespace("filt");
    assert !IsWhitespace("filt"[0]);
  }

  lemma OilMatchesFilt(oil: Part)
    requires oil.name == "Filtro de Óleo"
    ensures Matches(oil, "filt")
  {
    FiltIsPlainQuery();
    assert Lower(oil.name)[..4] == "filt";
  }

  lemma BeltMissesFilt(belt: Part)
    requires belt.name == "Correia" && belt.description == ""
    ensures !Matches(belt, "filt")
  {
    FiltIsPlainQuery();
    assert Lower(belt.name) == "correia";
    ExcludesWithoutFirstChar(Lower(belt.name), "filt");
    ExcludesWithoutFirstChar(Lower(belt.description), "filt");
  }

  /** Searching a two-part list in which only the first part matches keeps just that part. */
  lemma SearchFirstOfTwo(first: Part, second: Part, term: string)
    requires !IsBlank(term) && Matches(first, term) && !Matches(second, term)
    ensures Search([first, second], term) == [first]
  {
    var keep := MatchesTerm(term);
    Seqs.FilterCons(keep, second, []);
    assert [second] + [] == [second];
    Seqs.FilterCons(keep, first, [second]);
    assert [first] + [second] == [first, second];
  }

  /** Searching a list in which only the head matches keeps just the head. */
  lemma SearchKeepsOnlyHead(head: Part, rest: seq<Part>, term: string)
    requires !IsBlank(term) && Matches(head, term)
    requires forall i :: 0 <= i < |rest| ==> !Matches(rest[i], term)
    ensures Search([head] + rest, term) == [head]
  {
    Seqs.FilterDropsAll(MatchesTerm(term), rest);
    Seqs.FilterCons(MatchesTerm(term), head, rest);
  }

  /** Searching "filt" in a list holding "Filtro de Óleo" and "Correia" keeps only the filter. */
  lemma SearchExample()
    ensures var oil := Part("1", "Filtro de Óleo", "", 10, 2500, "", "", "");
            var belt := Part("2", "Correia", "", 5, 4000, "", "", "");
            Search([oil, belt], "filt") == [oil]
  {
    var oil := Part("1", "Filtro de Óleo", "", 10, 2500, "", "", "");
    var belt := Part("2", "Correia", "", 5, 4000, "", "", "");
    FiltIsPlainQuery();
    OilMatchesFilt(oil);
    BeltMissesFilt(belt);
    SearchFirstOfTwo(oil, belt, "filt");
  }
}
