/** The search box (src/components/SearchBar.tsx): every keystroke forwards the term to the page
    (`onSearch`) and refreshes a drop-down of at most five matching parts; choosing a suggestion
    searches for that part's name. */
module SearchBar {
  import opened Parts
  import Seqs
  import TextFilter

  const MaxSuggestions: nat := 5

  /** The drop-down for a term: nothing for a blank term, otherwise the first five parts whose name or
      description contains it. */
  function Suggestions(parts: seq<Part>, term: string): (r: seq<Part>)
    ensures |r| <= MaxSuggestions
  {
    if TextFilter.IsBlank(term) then [] else Seqs.Take(TextFilter.Matching(parts, term), MaxSuggestions)
  }

  /** The suggestions are the first (up to) five of the parts the page itself shows for the same term,
      each a part of the list that matches the term; there are fewer than five only when fewer match. */
  lemma SuggestionsSpec(parts: seq<Part>, term: string)
    ensures TextFilter.IsBlank(term) ==> Suggestions(parts, term) == []
    ensures !TextFilter.IsBlank(term) ==>
      var results := TextFilter.Search(parts, term);
      && |Suggestions(parts, term)| == (if |results| < MaxSuggestions then |results| else MaxSuggestions)
      && Suggestions(parts, term) == results[..|Suggestions(parts, term)|]
    ensures forall p :: p in Suggestions(parts, term) ==> p in parts && TextFilter.Matches(p, term)
  {
    if !TextFilter.IsBlank(term) {
      var matching := TextFilter.Matching(parts, term);
      TextFilter.MatchingSpec(parts, term);
      forall p | p in Suggestions(parts, term) ensures p in parts && TextFilter.Matches(p, term) {
        assert p in matching;
      }
    }
  }

  /** The box's state: the text in the field and the drop-down. */
  class SearchBox {
    /** The `parts` prop. */
    var parts: seq<Part>
    var searchTerm: string
    var showSuggestions: bool
    var suggestions: seq<Part>

    predicate Valid()
      reads this
    {
      |suggestions| <= MaxSuggestions
    }

    constructor (parts: seq<Part>)
      ensures Valid()
      ensures this.parts == parts && searchTerm == "" && !showSuggestions && suggestions == []
    {
      this.parts := parts;
      searchTerm := "";
      showSuggestions := false;
      suggestions := [];
    }

    method SetParts(parts: seq<Part>)
      modifies this`parts
      ensures this.parts == parts
    {
      this.parts := parts;
    }

    /** The drop-down is on screen only while it is open and has something in it. */
    predicate ShowsDropDown()
      reads this
    {
      showSuggestions && |suggestions| > 0
    }

    /** `handleSearch`: the field takes the term, the term is forwarded to the page (the returned
        `searched`), and the drop-down is refreshed and opened exactly when the term is not blank. */
    method HandleSearch(term: string) returns (searched: string)
      modifies this`searchTerm, this`showSuggestions, this`suggestions
      ensures Valid()
      ensures searched == term && searchTerm == term
      ensures suggestions == Suggestions(parts, term)
      ensures showSuggestions <==> !TextFilter.IsBlank(term)
      ensures ShowsDropDown() <==> !TextFilter.IsBlank(term) && exists p :: p in parts && TextFilter.Matches(p, term)
    {
      searchTerm := term;
      searched := term;
      if !TextFilter.IsBlank(term) {
        var filtered := TextFilter.Matching(parts, term);
        suggestions := Seqs.Take(filtered, MaxSuggestions);
        showSuggestions := true;
        TextFilter.MatchingSpec(parts, term);
        if exists p :: p in parts && TextFilter.Matches(p, term) {
          var p :| p in parts && TextFilter.Matches(p, term);
          assert p in filtered;
        }
        if filtered != [] {
          assert filtered[0] in filtered;
        }
      } else {
        suggestions := [];
        showSuggestions := false;
      }
    }

    /** `handleSuggestionClick`: the field takes the part's name, that name is forwarded to the page,
        and the drop-down closes; the suggestion list itself is left as it was. */
    method HandleSuggestionClick(part: Part) returns (searched: string)
      modifies this`searchTerm, this`showSuggestions
      ensures searched == part.name && searchTerm == part.name
      ensures !showSuggestions && !ShowsDropDown()
    {
      searchTerm := part.name;
      searched := part.name;
      showSuggestions := false;
    }

    /** A mouse press outside the box closes the drop-down and changes nothing else. */
    method HandleClickOutside()
      modifies this`showSuggestions
      ensures !showSuggestions && !ShowsDropDown()
    {
      showSuggestions := false;
    }
  }

  /** Choosing any suggestion searches for a name that the page's own search then finds: the chosen
      part is among the results. */
  lemma ChosenSuggestionIsFound(parts: seq<Part>, term: string, chosen: Part)
    requires chosen in Suggestions(parts, term)
    ensures chosen in TextFilter.Search(parts, chosen.name)
  {
    SuggestionsSpec(parts, term);
    TextFilter.SearchSpec(parts, chosen.name);
    if !TextFilter.IsBlank(chosen.name) {
      TextFilter.NameIncludesItself(chosen);
    }
  }
}
