/**
 * The search bar's phrase editor (`SearchBar`).
 *
 * The bar shows the `+`-separated phrases of the current query, one input each. Typing
 * collapses runs of whitespace and refuses a fourth word; at most three phrases can be
 * added and the last one cannot be removed. Searching joins the non-blank phrases with
 * `" + "` and either navigates within the current project or first creates a project with
 * a fresh "Untitled Project (n)" name.
 *
 * Navigation, toasts and the project-creation request are outcomes, not effects.
 */
module SearchBar {
  import opened Wrappers
  import opened Text

  const MaxPhrases: nat := 3
  const MaxWords: nat := 3
  const QuerySeparator: string := " + "
  const BaseName: string := "Untitled Project"
  const EmptyQueryMessage: string := "Please enter at least one phrase to search"
  const CreateFailedMessage: string := "Failed to create project"

  // ---------------------------------------------------------------- phrases of a query

  /** The phrases shown for a query: its `+`-segments, trimmed, blanks dropped; an empty query shows one empty phrase. */
  function ParseSearchValue(searchValue: string): (phrases: seq<string>)
    ensures searchValue == [] ==> phrases == [[]]
    ensures searchValue != [] ==> forall i :: 0 <= i < |phrases| ==> phrases[i] != [] && Stripped(phrases[i], JavaScript) && '+' !in phrases[i]
  {
    if searchValue == [] then [[]] else SplitTrimmed(searchValue, '+', JavaScript)
  }

  // ---------------------------------------------------------------- sanitising one phrase

  /** The length of the leading run of whitespace. */
  function SpaceRun(s: string): (n: nat)
    ensures n <= |s|
    ensures forall i :: 0 <= i < n ==> IsSpace(s[i], JavaScript)
    ensures n < |s| ==> !IsSpace(s[n], JavaScript)
  {
    if s != [] && IsSpace(s[0], JavaScript) then 1 + SpaceRun(s[1..]) else 0
  }

  /** `phrase.replace(/\s{2,}/g, ' ')`: every run of two or more whitespace characters becomes one space. */
  function Sanitize(s: string): (r: string)
    ensures r == [] <==> s == []
    ensures r != [] ==> (IsSpace(r[0], JavaScript) <==> IsSpace(s[0], JavaScript))
    decreases |s|
  {
    if s == [] then []
    else
      var n := SpaceRun(s);
      if n >= 2 then " " + Sanitize(s[n..]) else [s[0]] + Sanitize(s[1..])
  }

  /** No two adjacent whitespace characters. */
  predicate NoDoubleSpace(s: string)
  {
    forall i :: 0 <= i < |s| - 1 ==> !(IsSpace(s[i], JavaScript) && IsSpace(s[i + 1], JavaScript))
  }

  lemma {:induction false} SanitizeNoDoubleSpace(s: string)
    ensures NoDoubleSpace(Sanitize(s))
    decreases |s|
  {
    if s != [] {
      var n := SpaceRun(s);
      if n >= 2 {
        SanitizeNoDoubleSpace(s[n..]);
      } else {
        SanitizeNoDoubleSpace(s[1..]);
      }
    }
  }

  /** A phrase without adjacent whitespace is left as it is. */
  lemma {:induction false} SanitizeKeeps(s: string)
    requires NoDoubleSpace(s)
    ensures Sanitize(s) == s
    decreases |s|
  {
    if s != [] {
      assert SpaceRun(s) <= 1;
      assert NoDoubleSpace(s[1..]);
      SanitizeKeeps(s[1..]);
    }
  }

  /** Sanitising twice is sanitising once. */
  lemma SanitizeIdempotent(s: string)
    ensures Sanitize(Sanitize(s)) == Sanitize(s)
  {
    SanitizeNoDoubleSpace(s);
    SanitizeKeeps(Sanitize(s));
  }

  /** The non-whitespace characters of a string, in order. */
  function Letters(s: string): (r: string)
    ensures |r| <= |s|
  {
    if s == [] then [] else (if IsSpace(s[0], JavaScript) then [] else [s[0]]) + Letters(s[1..])
  }

  lemma {:induction false} LettersSpacePrefix(s: string, n: nat)
    requires n <= |s| && forall i :: 0 <= i < n ==> IsSpace(s[i], JavaScript)
    ensures Letters(s) == Letters(s[n..])
    decreases n
  {
    if n > 0 {
      LettersSpacePrefix(s[1..], n - 1);
      assert s[1..][n - 1..] == s[n..];
    }
  }

  /** Sanitising keeps every non-whitespace character, in order: only whitespace is dropped. */
  lemma {:induction false} SanitizeKeepsLetters(s: string)
    ensures Letters(Sanitize(s)) == Letters(s)
    decreases |s|
  {
    if s != [] {
      var n := SpaceRun(s);
      if n >= 2 {
        var rest := Sanitize(s[n..]);
        SanitizeKeepsLetters(s[n..]);
        assert (" " + rest)[1..] == rest;
        LettersSpacePrefix(s, n);
      } else {
        var rest := Sanitize(s[1..]);
        SanitizeKeepsLetters(s[1..]);
        assert ([s[0]] + rest)[1..] == rest;
      }
    }
  }

  lemma {:induction false} SpaceRunOf(sp: string, b: string)
    requires AllSpace(sp, JavaScript) && (b == [] || !IsSpace(b[0], JavaScript))
    ensures SpaceRun(sp + b) == |sp|
    decreases |sp|
  {
    if sp == [] {
      assert sp + b == b;
    } else {
      assert (sp + b)[1..] == sp[1..] + b;
      SpaceRunOf(sp[1..], b);
    }
  }

  /** A maximal run of two or more whitespace characters becomes exactly one space. */
  lemma SanitizeRun(sp: string, b: string)
    requires AllSpace(sp, JavaScript) && |sp| >= 2 && (b == [] || !IsSpace(b[0], JavaScript))
    ensures Sanitize(sp + b) == " " + Sanitize(b)
  {
    SpaceRunOf(sp, b);
    assert (sp + b)[|sp|..] == b;
  }

  /** A non-whitespace character is kept, and the rest is sanitised on its own. */
  lemma SanitizeLetter(c: char, s: string)
    requires !IsSpace(c, JavaScript)
    ensures Sanitize([c] + s) == [c] + Sanitize(s)
  {
    assert ([c] + s)[1..] == s;
  }

  /** A single whitespace character before a non-whitespace one (or the end) is kept as it is. */
  lemma SanitizeSingleSpace(w: char, b: string)
    requires IsSpace(w, JavaScript) && (b == [] || !IsSpace(b[0], JavaScript))
    ensures Sanitize([w] + b) == [w] + Sanitize(b)
  {
    SpaceRunOf([w], b);
    assert ([w] + b)[1..] == b;
  }

  /** Index of the first whitespace character, or the length. */
  function WordEnd(s: string): (k: nat)
    ensures k <= |s|
    ensures forall i :: 0 <= i < k ==> !IsSpace(s[i], JavaScript)
    ensures k < |s| ==> IsSpace(s[k], JavaScript)
  {
    if s != [] && !IsSpace(s[0], JavaScript) then 1 + WordEnd(s[1..]) else 0
  }

  /** `s.trim().split(/\s+/).filter(Boolean)`: the maximal whitespace-free runs, in order. */
  function Tokens(s: string): (words: seq<string>)
    ensures forall i :: 0 <= i < |words| ==> words[i] != [] && forall j :: 0 <= j < |words[i]| ==> !IsSpace(words[i][j], JavaScript)
    decreases |s|
  {
    var t := TrimLeft(s, JavaScript);
    if t == [] then []
    else
      var k := WordEnd(t);
      [t[..k]] + Tokens(t[k..])
  }

  lemma {:induction false} WordEndOf(w: string, rest: string)
    requires forall j :: 0 <= j < |w| ==> !IsSpace(w[j], JavaScript)
    requires rest == [] || IsSpace(rest[0], JavaScript)
    ensures WordEnd(w + rest) == |w|
    decreases |w|
  {
    if w == [] {
      assert w + rest == rest;
    } else {
      assert (w + rest)[1..] == w[1..] + rest;
      WordEndOf(w[1..], rest);
    }
  }

  /** There are no words exactly when the text is all whitespace. */
  lemma TokensNone(s: string)
    ensures Tokens(s) == [] <==> AllSpace(s, JavaScript)
  {
    TrimLeftSuffix(s, JavaScript);
    if AllSpace(s, JavaScript) {
      TrimLeftPad(s, [], JavaScript);
      assert s + [] == s;
    }
  }

  /** Leading whitespace does not change the words. */
  lemma TokensSpacePrefix(sp: string, s: string)
    requires AllSpace(sp, JavaScript)
    ensures Tokens(sp + s) == Tokens(s)
  {
    TrimLeftPad(sp, s, JavaScript);
  }

  /** A maximal whitespace-free run at the front is the first word, and the words of the rest follow. */
  lemma TokensWord(w: string, rest: string)
    requires w != [] && forall j :: 0 <= j < |w| ==> !IsSpace(w[j], JavaScript)
    requires rest == [] || IsSpace(rest[0], JavaScript)
    ensures Tokens(w + rest) == [w] + Tokens(rest)
  {
    var t := w + rest;
    assert !IsSpace(t[0], JavaScript);
    assert TrimLeft(t, JavaScript) == t;
    WordEndOf(w, rest);
    assert t[..|w|] == w && t[|w|..] == rest;
  }

  predicate EndsWithSpace(s: string)
  {
    s != [] && s[|s| - 1] == ' '
  }

  /** An edit is taken unless the sanitised text has more than three words, or three and a trailing space. */
  predicate EditAllowed(sanitized: string)
    ensures EditAllowed(sanitized) ==> |Tokens(sanitized)| <= MaxWords
    ensures |Tokens(sanitized)| < MaxWords ==> EditAllowed(sanitized)
  {
    var n := |Tokens(sanitized)|;
    !(n > MaxWords) && !(n == MaxWords && EndsWithSpace(sanitized))
  }

  // ---------------------------------------------------------------- the phrase list

  class PhraseEditor {
    var phrases: seq<string>

    /** The initial phrases of a query. */
    constructor (searchValue: string)
      ensures phrases == ParseSearchValue(searchValue)
    {
      phrases := ParseSearchValue(searchValue);
    }

    /** A new query (the `searchValue` effect) replaces the phrases. */
    method QueryChanged(searchValue: string)
      modifies this
      ensures phrases == ParseSearchValue(searchValue)
    {
      phrases := ParseSearchValue(searchValue);
    }

    /** `clear`: one empty phrase. */
    method Clear()
      modifies this
      ensures phrases == [[]]
    {
      phrases := [[]];
    }

    /** `onAddPhrase`: an empty phrase at the end, unless three are shown already. */
    method AddPhrase()
      modifies this
      ensures phrases == if |old(phrases)| < MaxPhrases then old(phrases) + [[]] else old(phrases)
      ensures |phrases| <= MaxPhrases || phrases == old(phrases)
    {
      if |phrases| < MaxPhrases {
        phrases := phrases + [[]];
      }
    }

    /** `onPhraseChange`: entry `index` takes the sanitised text, unless the edit would exceed three words. */
    method ChangePhrase(index: nat, value: string)
      requires index < |phrases|
      modifies this
      ensures var sanitized := Sanitize(value);
        phrases == if EditAllowed(sanitized) then old(phrases)[index := sanitized] else old(phrases)
      ensures |phrases| == |old(phrases)|
      ensures forall i :: 0 <= i < |phrases| && i != index ==> phrases[i] == old(phrases)[i]
      ensures phrases != old(phrases) ==> |Tokens(phrases[index])| <= MaxWords && NoDoubleSpace(phrases[index])
    {
      var sanitized := Sanitize(value);
      SanitizeNoDoubleSpace(value);
      var words := Tokens(sanitized);
      if |words| > MaxWords {
        return;
      }
      if |words| == MaxWords && EndsWithSpace(sanitized) {
        return;
      }
      phrases := phrases[index := sanitized];
    }

    /** `onRemovePhrase`: drop entry `index`, unless it is the only one. */
    method RemovePhrase(index: nat)
      requires index < |phrases|
      modifies this
      ensures phrases == if |old(phrases)| > 1 then old(phrases)[..index] + old(phrases)[index + 1..] else old(phrases)
      ensures |phrases| >= 1 || phrases == old(phrases)
    {
      if |phrases| > 1 {
        phrases := phrases[..index] + phrases[index + 1..];
      }
    }
  }

  // ---------------------------------------------------------------- searching

  /** `phrases.filter(p => p.trim())`: the non-blank phrases, untrimmed, in order. */
  function NonBlank(phrases: seq<string>): (r: seq<string>)
    ensures |r| <= |phrases|
    ensures forall i :: 0 <= i < |r| ==> r[i] in phrases && Strip(r[i], JavaScript) != []
    ensures r == [] <==> forall i :: 0 <= i < |phrases| ==> Strip(phrases[i], JavaScript) == []
  {
    if phrases == [] then []
    else (if Strip(phrases[0], JavaScript) != [] then [phrases[0]] else []) + NonBlank(phrases[1..])
  }

  /** What searching does. */
  datatype SearchOutcome =
    | Rejected(toast: string)
    | Navigate(projectId: string, query: string)
    | CreateAndNavigate(projectName: string, createdId: string, query: string)
    | CreateFailed(projectName: string, toast: string)

  /** `onSearch`: within a project, navigate to its search; otherwise create a project first (`created` is the
      new project's id, `None` when creation fails). */
  function OnSearch(phrases: seq<string>, projectId: Option<string>, existingNames: seq<string>,
                    created: Option<string>): (outcome: SearchOutcome)
    ensures outcome.Rejected? <==> NonBlank(phrases) == []
    ensures outcome.Rejected? ==> outcome.toast == EmptyQueryMessage
    ensures !outcome.Rejected? ==> (outcome.Navigate? <==> Truthy(projectId))
    ensures outcome.Navigate? ==> outcome.projectId == projectId.value && outcome.query == Join(NonBlank(phrases), QuerySeparator)
    ensures outcome.CreateAndNavigate? ==>
      outcome.query == Join(NonBlank(phrases), QuerySeparator) && Some(outcome.createdId) == created
    ensures outcome.CreateFailed? <==> NonBlank(phrases) != [] && !Truthy(projectId) && created.None?
    ensures outcome.CreateFailed? ==> outcome.toast == CreateFailedMessage
    ensures outcome.CreateAndNavigate? || outcome.CreateFailed? ==> StartsWith(outcome.projectName, BaseName)
    ensures (outcome.CreateAndNavigate? || outcome.CreateFailed?) && ExactNumbers(existingNames) ==>
      outcome.projectName !in existingNames
  {
    var valid := NonBlank(phrases);
    if valid == [] then Rejected(EmptyQueryMessage)
    else
      var query := Join(valid, QuerySeparator);
      if Truthy(projectId) then Navigate(projectId.value, query)
      else
        var name := GenerateProjectName(existingNames);
        assert ExactNumbers(existingNames) ==> name !in existingNames by {
          if ExactNumbers(existingNames) {
            GeneratedNameIsFresh(existingNames);
          }
        }
        match created
        case Some(id) => CreateAndNavigate(name, id, query)
        case None => CreateFailed(name, CreateFailedMessage)
  }

  function StripAll(parts: seq<string>): (r: seq<string>)
    ensures |r| == |parts|
  {
    if parts == [] then [] else [Strip(parts[0], JavaScript)] + StripAll(parts[1..])
  }

  lemma {:induction false} JoinSplitTrimmed(a: string, parts: seq<string>)
    requires AllSpace(a, JavaScript) && |parts| >= 1
    requires forall i :: 0 <= i < |parts| ==> '+' !in parts[i] && Strip(parts[i], JavaScript) != []
    ensures StripNonBlank(Split(a + Join(parts, QuerySeparator), '+'), JavaScript) == StripAll(parts)
    decreases |parts|
  {
    assert '+' !in a;
    if |parts| == 1 {
      assert a + Join(parts, QuerySeparator) == a + parts[0] + [];
      StripPadded(a, parts[0], [], JavaScript);
      assert Split(a + parts[0] + [], '+') == [a + parts[0] + []];
    } else {
      var x := a + parts[0] + " ";
      var y := " " + Join(parts[1..], QuerySeparator);
      assert a + Join(parts, QuerySeparator) == x + ['+'] + y;
      assert '+' !in x;
      SplitAfterPrefix(x, y, '+');
      StripPadded(a, parts[0], " ", JavaScript);
      var pieces := [x] + Split(y, '+');
      assert pieces[1..] == Split(y, '+');
      JoinSplitTrimmed(" ", parts[1..]);
    }
  }

  lemma JoinNonEmpty(parts: seq<string>, sep: string)
    requires |parts| >= 1 && parts[0] != []
    ensures Join(parts, sep) != []
  {
    if |parts| > 1 {
      assert Join(parts, sep) == parts[0] + sep + Join(parts[1..], sep);
    }
  }

  lemma NonBlankFree(phrases: seq<string>, c: char)
    requires forall i :: 0 <= i < |phrases| ==> c !in phrases[i]
    ensures forall i :: 0 <= i < |NonBlank(phrases)| ==> c !in NonBlank(phrases)[i]
  {
    var r := NonBlank(phrases);
    forall i | 0 <= i < |r|
      ensures c !in r[i]
    {
      assert r[i] in phrases;
    }
  }

  /** The query a search navigates with reads back, on the search page, as the same phrases trimmed --
      provided no phrase contains `+`. */
  lemma QueryRoundTrip(phrases: seq<string>)
    requires forall i :: 0 <= i < |phrases| ==> '+' !in phrases[i]
    requires NonBlank(phrases) != []
    ensures ParseSearchValue(Join(NonBlank(phrases), QuerySeparator)) == StripAll(NonBlank(phrases))
  {
    var valid := NonBlank(phrases);
    NonBlankFree(phrases, '+');
    ParseJoined(valid);
  }

  /** Phrases free of `+` and not blank, joined with `" + "`, parse back as themselves trimmed. */
  lemma ParseJoined(valid: seq<string>)
    requires |valid| >= 1
    requires forall i :: 0 <= i < |valid| ==> '+' !in valid[i] && Strip(valid[i], JavaScript) != []
    ensures ParseSearchValue(Join(valid, QuerySeparator)) == StripAll(valid)
  {
    var query := Join(valid, QuerySeparator);
    JoinNonEmpty(valid, QuerySeparator);
    JoinSplitTrimmed([], valid);
    assert [] + query == query;
    assert ParseSearchValue(query) == StripNonBlank(Split(query, '+'), JavaScript);
  }

  // ---------------------------------------------------------------- naming a new project

  /** The length of the run of decimal digits at the end of `s`. */
  function DigitSuffix(s: string): (n: nat)
    ensures n <= |s| && AllDigits(s[|s| - n..])
  {
    if s != [] && IsDigit(s[|s| - 1]) then 1 + DigitSuffix(s[..|s| - 1]) else 0
  }

  /** The number of a trailing `(digits)` (`/\((\d+)\)$/`), or 0 when the name has none. */
  function TrailingNumber(name: string): (n: nat)
    ensures n > 0 ==> |name| >= 3 && name[|name| - 1] == ')'
  {
    if name != [] && name[|name| - 1] == ')' then
      var body := name[..|name| - 1];
      var n := DigitSuffix(body);
      if 0 < n < |body| && body[|body| - n - 1] == '(' then DigitsValue(body[|body| - n..]) else 0
    else 0
  }

  /** The largest trailing number among the names that start with the base name, and 0. */
  function MaxNumber(names: seq<string>): (m: nat)
    ensures m > 0 ==> exists i :: 0 <= i < |names| && StartsWith(names[i], BaseName) && TrailingNumber(names[i]) == m
  {
    if names == [] then 0
    else
      var last := names[|names| - 1];
      var m := MaxNumber(names[..|names| - 1]);
      if StartsWith(last, BaseName) && TrailingNumber(last) > m then TrailingNumber(last) else m
  }

  /** `generateProjectName`. */
  function GenerateProjectName(names: seq<string>): (name: string)
    ensures StartsWith(name, BaseName)
  {
    if forall i :: 0 <= i < |names| ==> !StartsWith(names[i], BaseName) then BaseName
    else BaseName + " (" + Digits(MaxNumber(names) + 1) + ")"
  }

  lemma {:induction false} MaxNumberBound(names: seq<string>, i: nat)
    requires i < |names| && StartsWith(names[i], BaseName)
    ensures TrailingNumber(names[i]) <= MaxNumber(names)
  {
    if i < |names| - 1 {
      var front := names[..|names| - 1];
      assert front[i] == names[i];
      MaxNumberBound(front, i);
    }
  }

  /** With exact numbers, the largest one is below `MaxSafeInteger` too. */
  lemma {:induction false} MaxNumberExact(names: seq<string>)
    requires ExactNumbers(names)
    ensures MaxNumber(names) < MaxSafeInteger
  {
    if names != [] {
      MaxNumberExact(names[..|names| - 1]);
    }
  }

  lemma {:induction false} DigitSuffixAppend(p: string, d: string)
    requires AllDigits(d)
    ensures DigitSuffix(p + d) == DigitSuffix(p) + |d|
    decreases |d|
  {
    if d == [] {
      assert p + d == p;
    } else {
      assert (p + d)[..|p + d| - 1] == p + d[..|d| - 1];
      DigitSuffixAppend(p, d[..|d| - 1]);
    }
  }

  /** `Number.MAX_SAFE_INTEGER`: `parseInt` and `+ 1` compute on doubles, exact only up to here. */
  const MaxSafeInteger: nat := 9007199254740991

  /** Every trailing number among the base-named projects is below `MaxSafeInteger`, so the
      largest of them plus one is computed exactly. */
  predicate ExactNumbers(names: seq<string>)
  {
    forall i :: 0 <= i < |names| && StartsWith(names[i], BaseName) ==> TrailingNumber(names[i]) < MaxSafeInteger
  }

  /** The generated numbered name reads back its own number. */
  lemma NumberedNameNumber(k: nat)
    requires k <= MaxSafeInteger
    ensures TrailingNumber(BaseName + " (" + Digits(k) + ")") == k
  {
    var p := BaseName + " (";
    var d := Digits(k);
    var name := p + d + ")";
    var body := name[..|name| - 1];
    assert body == p + d;
    DigitSuffixAppend(p, d);
    assert DigitSuffix(p) == 0;
    assert body[|body| - |d| - 1] == '(';
    assert body[|body| - |d|..] == d;
    DigitsRoundTrip(k);
  }

  /** The generated name differs from every existing name. */
  lemma GeneratedNameIsFresh(names: seq<string>)
    requires ExactNumbers(names)
    ensures GenerateProjectName(names) !in names
  {
    var name := GenerateProjectName(names);
    forall i | 0 <= i < |names|
      ensures names[i] != name
    {
      if StartsWith(names[i], BaseName) {
        MaxNumberBound(names, i);
        MaxNumberExact(names);
        NumberedNameNumber(MaxNumber(names) + 1);
      }
    }
  }
}
