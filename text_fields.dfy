/**
 * The text fields that the module serializers generate from the model's
 * `title = CharField(max_length=30)` and `description = TextField()`. Before
 * any serializer-level validator runs, each field strips surrounding
 * whitespace, refuses a blank value and checks the stripped value's length
 * (title only) and its characters.
 */
module TextFields {
  import opened Wrappers

  /** The `max_length` of each field; the description has none. */
  const TitleMaxLength: Option<nat> := Some(30)
  const DescriptionMaxLength: Option<nat> := None

  /** A field's own refusals; each makes the request a 400 keyed by the field's name. */
  datatype FieldError = Blank | TooLong | NullCharacter

  /** The characters Python's `str.isspace` accepts, which `str.strip` removes. */
  predicate IsSpace(c: char) {
    ('\t' <= c <= '\r') || ('\U{1C}' <= c <= '\U{1F}') || c == ' '
    || c == '\U{85}' || c == '\U{A0}' || c == '\U{1680}'
    || ('\U{2000}' <= c <= '\U{200A}') || c == '\U{2028}' || c == '\U{2029}'
    || c == '\U{202F}' || c == '\U{205F}' || c == '\U{3000}'
  }

  /** The index of the first non-whitespace character of `s` at or after `i`, or `|s|`. */
  function SkipLeading(s: string, i: nat): (j: nat)
    requires i <= |s|
    ensures i <= j <= |s|
    ensures forall k :: i <= k < j ==> IsSpace(s[k])
    ensures j == |s| || !IsSpace(s[j])
    decreases |s| - i
  {
    if i < |s| && IsSpace(s[i]) then SkipLeading(s, i + 1) else i
  }

  /**
   * The index just after the last non-whitespace character of `s` before `j`
   * and after `lo`, or `lo`.
   */
  function SkipTrailing(s: string, lo: nat, j: nat): (e: nat)
    requires lo <= j <= |s|
    ensures lo <= e <= j
    ensures forall k :: e <= k < j ==> IsSpace(s[k])
    ensures e == lo || !IsSpace(s[e - 1])
  {
    if lo < j && IsSpace(s[j - 1]) then SkipTrailing(s, lo, j - 1) else j
  }

  /**
   * `r` is what remains of `s` once the whitespace before index `i` and
   * after index `i + |r|` is cut off.
   */
  ghost predicate StrippedAt(s: string, i: int, r: string) {
    0 <= i <= |s| - |r| && r == s[i..i + |r|]
    && (forall k :: 0 <= k < i ==> IsSpace(s[k]))
    && (forall k :: i + |r| <= k < |s| ==> IsSpace(s[k]))
  }

  /**
   * `str.strip()`: the slice of `s` left after removing whitespace at both
   * ends; it neither starts nor ends with whitespace.
   */
  function Strip(s: string): (r: string)
    ensures r == [] || (!IsSpace(r[0]) && !IsSpace(r[|r| - 1]))
    ensures exists i :: StrippedAt(s, i, r)
  {
    var i := SkipLeading(s, 0);
    var e := SkipTrailing(s, i, |s|);
    assert StrippedAt(s, i, s[i..e]);
    s[i..e]
  }

  /** A value without whitespace at either end is left as it is. */
  lemma {:induction false} StripKeepsTrimmed(s: string)
    requires s == [] || (!IsSpace(s[0]) && !IsSpace(s[|s| - 1]))
    ensures Strip(s) == s
  {
    var r := Strip(s);
    var i :| StrippedAt(s, i, r);
    if s != [] {
      assert !IsSpace(s[0]) && !IsSpace(s[|s| - 1]);
      assert i == 0 && i + |r| == |s|;
    }
  }

  /** A non-empty trimmed value within the length limit and without NUL is accepted unchanged. */
  lemma TrimmedValueAccepted(s: string, maxLength: Option<nat>)
    requires s != [] && !IsSpace(s[0]) && !IsSpace(s[|s| - 1])
    requires (maxLength.Some? ==> |s| <= maxLength.value) && '\0' !in s
    ensures Clean(s, maxLength) == Ok(s)
  {
    StripKeepsTrimmed(s);
  }

  /** Stripping twice is stripping once. */
  lemma StripIdempotent(s: string)
    ensures Strip(Strip(s)) == Strip(s)
  {
    StripKeepsTrimmed(Strip(s));
  }

  /**
   * A field's validation of a supplied value: `Ok` with the stripped value,
   * or the errors the field raises.
   */
  function Clean(raw: string, maxLength: Option<nat>): (r: Result<string, set<FieldError>>)
    ensures r.Ok? <==>
      Strip(raw) != [] && (maxLength.Some? ==> |Strip(raw)| <= maxLength.value) && '\0' !in Strip(raw)
    ensures r.Ok? ==> r.value == Strip(raw)
    ensures r.Err? ==> r.error != {}
    ensures r.Err? && Strip(raw) == [] ==> r.error == {Blank}
    ensures r.Err? && Strip(raw) != [] ==>
      (TooLong in r.error <==> maxLength.Some? && |Strip(raw)| > maxLength.value) &&
      (NullCharacter in r.error <==> '\0' in Strip(raw)) &&
      Blank !in r.error
  {
    // the blank check runs before the value is converted
    if raw == "" || Strip(raw) == "" then Err({Blank})
    else
      var value := Strip(raw);
      var errors := (if maxLength.Some? && |value| > maxLength.value then {TooLong} else {})
        + (if '\0' in value then {NullCharacter} else {});
      if errors == {} then Ok(value) else Err(errors)
  }

  /** The empty value and an all-blank value are refused as blank, whatever the limit. */
  lemma BlankValuesRefused(maxLength: Option<nat>)
    ensures Clean("", maxLength) == Err({Blank})
    ensures Clean(" \t ", maxLength) == Err({Blank})
  {
    assert SkipLeading(" \t ", 0) == 3;
  }

  /** A leading line break is stripped off a title before any other check. */
  lemma LeadingLineBreakStripped()
    ensures Clean("\nказино", TitleMaxLength) == Ok("казино")
  {
    var s := "\nказино";
    assert SkipLeading(s, 0) == 1 && SkipTrailing(s, 1, |s|) == |s|;
    assert Strip(s) == s[1..] == "казино";
  }

  /** The title "казино" and the description of the create tests pass the fields unchanged. */
  lemma BannedTitlePayloadAccepted()
    ensures Clean("казино", TitleMaxLength) == Ok("казино")
    ensures Clean("тестовое описание", DescriptionMaxLength) == Ok("тестовое описание")
  {
    TrimmedValueAccepted("казино", TitleMaxLength);
    TrimmedValueAccepted("тестовое описание", DescriptionMaxLength);
  }

  /** The title "Data science" and the description of the create tests pass the fields unchanged. */
  lemma CorrectPayloadAccepted()
    ensures Clean("Data science", TitleMaxLength) == Ok("Data science")
    ensures Clean("тестовое описание", DescriptionMaxLength) == Ok("тестовое описание")
  {
    TrimmedValueAccepted("Data science", TitleMaxLength);
    TrimmedValueAccepted("тестовое описание", DescriptionMaxLength);
  }
}
