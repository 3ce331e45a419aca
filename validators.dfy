/**
 * TitleValidation: the serializer-level validator that refuses a module title
 * containing one of nine banned words. The source runs
 *   re.match(r'(.*)(w1|...|w9)(.*)', title, re.IGNORECASE)
 * without DOTALL: the leading group may not cross a line break, so a word is
 * caught only inside the title's first line.
 */
module Validators {
  import opened Wrappers

  /** The alternatives of the pattern's middle group, in the source's order. */
  const BannedWords: seq<string> :=
    ["биржа", "казино", "криптовалюта", "крипта", "дешево", "бесплатно", "обман", "полиция", "радар"]

  /** The single key and the fixed message of the raised error. */
  const BannedWordsKey: string := "banned_words"
  const BannedWordsMessage: string := "Нельзя публиковать запрещенные материалы"

  /** The `errors` dictionary the validator raises. */
  type ErrorMap = map<string, string>

  /** Upper-case letters of the two alphabets the title can use: ASCII and Russian Cyrillic. */
  predicate IsUpper(c: char) {
    ('A' <= c <= 'Z') || ('А' <= c <= 'Я') || c == 'Ё'
  }

  /** Case folding for IGNORECASE, per character: A–Z, А–Я and Ё to their small forms. */
  function Lower(c: char): (r: char)
    ensures !IsUpper(r)
    ensures !IsUpper(c) ==> r == c
    ensures r == '\n' <==> c == '\n'
  {
    if 'A' <= c <= 'Z' then (c as int + 32) as char
    else if 'А' <= c <= 'Я' then (c as int + 32) as char
    else if c == 'Ё' then 'ё'
    else c
  }

  /**
   * The case table letter by letter: each capital of the Latin and the Russian
   * alphabet becomes its own small letter, and every small letter stays.
   */
  lemma LowerFollowsAlphabets()
    ensures Lower('A') == 'a' && Lower('B') == 'b' && Lower('C') == 'c' && Lower('D') == 'd' && Lower('E') == 'e' && Lower('F') == 'f' && Lower('G') == 'g'
    ensures Lower('H') == 'h' && Lower('I') == 'i' && Lower('J') == 'j' && Lower('K') == 'k' && Lower('L') == 'l' && Lower('M') == 'm' && Lower('N') == 'n'
    ensures Lower('O') == 'o' && Lower('P') == 'p' && Lower('Q') == 'q' && Lower('R') == 'r' && Lower('S') == 's' && Lower('T') == 't' && Lower('U') == 'u'
    ensures Lower('V') == 'v' && Lower('W') == 'w' && Lower('X') == 'x' && Lower('Y') == 'y' && Lower('Z') == 'z'
    ensures Lower('А') == 'а' && Lower('Б') == 'б' && Lower('В') == 'в' && Lower('Г') == 'г' && Lower('Д') == 'д' && Lower('Е') == 'е' && Lower('Ё') == 'ё'
    ensures Lower('Ж') == 'ж' && Lower('З') == 'з' && Lower('И') == 'и' && Lower('Й') == 'й' && Lower('К') == 'к' && Lower('Л') == 'л' && Lower('М') == 'м'
    ensures Lower('Н') == 'н' && Lower('О') == 'о' && Lower('П') == 'п' && Lower('Р') == 'р' && Lower('С') == 'с' && Lower('Т') == 'т' && Lower('У') == 'у'
    ensures Lower('Ф') == 'ф' && Lower('Х') == 'х' && Lower('Ц') == 'ц' && Lower('Ч') == 'ч' && Lower('Ш') == 'ш' && Lower('Щ') == 'щ' && Lower('Ъ') == 'ъ'
    ensures Lower('Ы') == 'ы' && Lower('Ь') == 'ь' && Lower('Э') == 'э' && Lower('Ю') == 'ю' && Lower('Я') == 'я'
    ensures forall c :: 'a' <= c <= 'z' || 'а' <= c <= 'я' || c == 'ё' ==> Lower(c) == c
  {
  }

  /** The word `w` occurs in `s` at position `i`, ignoring case. */
  predicate WordAt(s: string, i: nat, w: string) {
    i + |w| <= |s| && forall k :: 0 <= k < |w| ==> Lower(s[i + k]) == Lower(w[k])
  }

  /**
   * What `re.match` decides: the title splits into a newline-free prefix (the
   * first `(.*)`), one banned word up to case, and any rest (the last `(.*)`
   * may match the empty string, and `match` need not reach the end).
   */
  ghost predicate RegexMatches(title: string) {
    exists i: nat, w: string ::
      w in BannedWords && i <= |title| && '\n' !in title[..i] && WordAt(title, i, w)
  }

  /** The text before the first line break, or the whole title if it has none. */
  function FirstLine(s: string): (l: string)
    ensures |l| <= |s| && l == s[..|l|]
    ensures '\n' !in l
    ensures |l| < |s| ==> s[|l|] == '\n'
  {
    if s == [] || s[0] == '\n' then []
    else [s[0]] + FirstLine(s[1..])
  }

  /** Tries the alternatives of the middle group, in order, at position `i`. */
  function MatchAny(s: string, i: nat, words: seq<string>): (r: bool)
    ensures r <==> exists w :: w in words && WordAt(s, i, w)
  {
    if words == [] then false
    else WordAt(s, i, words[0]) || MatchAny(s, i, words[1..])
  }

  /** The substring scan: some banned word starts at a position `j >= i` of `line`. */
  function ScanFrom(line: string, i: nat): (r: bool)
    requires i <= |line|
    ensures r <==> exists j: nat, w :: i <= j <= |line| && w in BannedWords && WordAt(line, j, w)
    decreases |line| - i
  {
    MatchAny(line, i, BannedWords) || (i < |line| && ScanFrom(line, i + 1))
  }

  /** The validator's test: a banned word inside the first line. */
  function Matches(title: string): bool {
    ScanFrom(FirstLine(title), 0)
  }

  /** No banned word contains a line break. */
  lemma BannedWordsHaveNoNewline(w: string)
    requires w in BannedWords
    ensures '\n' !in w
  {
  }

  /** A newline-free prefix of `s` lies inside its first line. */
  lemma FirstLineCovers(s: string, n: nat)
    requires n <= |s| && '\n' !in s[..n]
    ensures n <= |FirstLine(s)|
  {
    // FirstLine's contract: a shorter first line would end on a line break inside s[..n]
  }

  /** The scan over the first line decides exactly what the regular expression decides. */
  lemma MatchesIsRegexMatch(title: string)
    ensures Matches(title) <==> RegexMatches(title)
  {
    var l := FirstLine(title);
    if Matches(title) {
      var j: nat, w :| j <= |l| && w in BannedWords && WordAt(l, j, w);
      assert title[..j] == l[..j];
      assert '\n' !in title[..j];
      forall k | 0 <= k < |w| ensures Lower(title[j + k]) == Lower(w[k]) {
        assert title[j + k] == l[j + k];
      }
      assert WordAt(title, j, w);
    }
    if RegexMatches(title) {
      var i: nat, w :| w in BannedWords && i <= |title| && '\n' !in title[..i] && WordAt(title, i, w);
      BannedWordsHaveNoNewline(w);
      forall m | 0 <= m < i + |w| ensures title[m] != '\n' {
        if m < i {
          assert title[..i][m] == title[m];
        } else {
          assert Lower(title[i + (m - i)]) == Lower(w[m - i]);
          assert w[m - i] in w;
        }
      }
      assert '\n' !in title[..i + |w|];
      FirstLineCovers(title, i + |w|);
      forall k | 0 <= k < |w| ensures Lower(l[i + k]) == Lower(w[k]) {
        assert l[i + k] == title[i + k];
      }
      assert WordAt(l, i, w);
    }
  }

  /** The error every rejection raises. */
  const BannedWordsError: ErrorMap := map[BannedWordsKey := BannedWordsMessage]

  /**
   * The validator object. `field` is kept as the constructor stores it; the
   * check itself always reads the "title" entry.
   */
  datatype TitleValidation = TitleValidation(field: string)
  {
    /** `__call__`: `Some(errors)` where the source raises ValidationError(errors), `None` where it returns. */
    function Call(value: map<string, string>): (r: Option<ErrorMap>)
      requires "title" in value
      ensures r.Some? <==> RegexMatches(value["title"])
      ensures r.Some? ==> r.value == BannedWordsError
    {
      MatchesIsRegexMatch(value["title"]);
      var errors: ErrorMap :=
        if Matches(value["title"]) then map[BannedWordsKey := BannedWordsMessage] else map[];
      assert BannedWordsKey in errors <==> Matches(value["title"]);
      if errors != map[] then Some(errors) else None
    }
  }

  /** Only the "title" entry is read, and the stored `field` plays no part. */
  lemma OnlyTitleIsRead(v1: TitleValidation, v2: TitleValidation, a: map<string, string>, b: map<string, string>)
    requires "title" in a && "title" in b && a["title"] == b["title"]
    ensures v1.Call(a) == v2.Call(b)
  {
  }

  /** Appending any text keeps a rejected title rejected (the trailing `(.*)`). */
  lemma {:induction false} RejectedAfterAppend(s: string, t: string)
    requires RegexMatches(s)
    ensures RegexMatches(s + t)
  {
    var i: nat, w :| w in BannedWords && i <= |s| && '\n' !in s[..i] && WordAt(s, i, w);
    assert (s + t)[..i] == s[..i];
    forall k | 0 <= k < |w| ensures Lower((s + t)[i + k]) == Lower(w[k]) {
      assert (s + t)[i + k] == s[i + k];
    }
    assert WordAt(s + t, i, w);
  }

  /** Prepending newline-free text keeps a rejected title rejected (the leading `(.*)`). */
  lemma {:induction false} RejectedAfterPrepend(t: string, s: string)
    requires '\n' !in t
    requires RegexMatches(s)
    ensures RegexMatches(t + s)
  {
    var i: nat, w :| w in BannedWords && i <= |s| && '\n' !in s[..i] && WordAt(s, i, w);
    var j := |t| + i;
    assert (t + s)[..j] == t + s[..i];
    forall k | 0 <= k < |w| ensures Lower((t + s)[j + k]) == Lower(w[k]) {
      assert (t + s)[j + k] == s[i + k];
    }
    assert WordAt(t + s, j, w);
  }

  /** A word after the first line break is not caught: the title is accepted. */
  lemma {:induction false} HiddenAfterNewline(t: string, s: string)
    requires !RegexMatches(t) && '\n' !in t
    ensures !RegexMatches(t + "\n" + s)
  {
    MatchesIsRegexMatch(t);
    MatchesIsRegexMatch(t + "\n" + s);
    FirstLineStopsAtNewline(t, s);
  }

  /** The first line of `t + "\n" + s` is `t` when `t` has no line break. */
  lemma {:induction false} FirstLineStopsAtNewline(t: string, s: string)
    requires '\n' !in t
    ensures FirstLine(t + "\n" + s) == t
    decreases |t|
  {
    if t == [] {
      assert (t + "\n" + s)[0] == '\n';
    } else {
      assert (t + "\n" + s)[1..] == t[1..] + "\n" + s;
      FirstLineStopsAtNewline(t[1..], s);
    }
  }
}
