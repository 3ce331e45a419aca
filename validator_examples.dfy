/**
 * The validator applied to the titles the module tests use, and a sufficient
 * condition for acceptance that makes such checks short.
 */
module ValidatorExamples {
  import opened Wrappers
  import opened Validators

  /** Some character of `w` is, up to case, one of `letters`. */
  predicate NeedsOneOf(w: string, letters: set<char>) {
    exists k :: 0 <= k < |w| && Lower(w[k]) in letters
  }

  /**
   * Acceptance when each banned word needs, up to case, one of `letters`
   * and no character of the title is one of them.
   */
  lemma AcceptedWhenLettersAbsent(title: string, letters: set<char>)
    requires forall j :: 0 <= j < |title| ==> Lower(title[j]) !in letters
    requires forall w :: w in BannedWords ==> NeedsOneOf(w, letters)
    ensures !RegexMatches(title)
  {
  }

  /** Four letters that every banned word contains one of. */
  const KeyLetters: set<char> := {'б', 'к', 'д', 'п'}

  lemma EveryBannedWordHasKeyLetter()
    ensures forall w :: w in BannedWords ==> NeedsOneOf(w, KeyLetters)
  {
    forall w | w in BannedWords ensures NeedsOneOf(w, KeyLetters) {
      if w == "обман" {
        assert Lower(w[1]) in KeyLetters;
      } else if w == "радар" {
        assert Lower(w[2]) in KeyLetters;
      } else {
        assert Lower(w[0]) in KeyLetters;
      }
    }
  }

  /** The titles of the module tests: "казино" is refused on create and on update. */
  lemma TestTitleKazinoRejected()
    ensures TitleValidation("title").Call(map["title" := "казино"]) == Some(BannedWordsError)
  {
    assert WordAt("казино", 0, "казино");
  }

  /** "Data science", the title of the successful create, passes. */
  lemma TestTitleDataScienceAccepted()
    ensures TitleValidation("title").Call(map["title" := "Data science"]) == None
  {
    EveryBannedWordHasKeyLetter();
    var t := "Data science";
    assert forall j :: 0 <= j < |t| ==> Lower(t[j]) !in KeyLetters;
    AcceptedWhenLettersAbsent(t, KeyLetters);
  }

  /** "Астрономия", the title of the successful update, passes. */
  lemma TestTitleAstronomyAccepted()
    ensures TitleValidation("title").Call(map["title" := "Астрономия"]) == None
  {
    EveryBannedWordHasKeyLetter();
    var t := "Астрономия";
    assert forall j :: 0 <= j < |t| ==> Lower(t[j]) !in KeyLetters;
    AcceptedWhenLettersAbsent(t, KeyLetters);
  }

  /** Case is ignored. */
  lemma CapitalisedWordRejected()
    ensures TitleValidation("title").Call(map["title" := "Казино акция"]) == Some(BannedWordsError)
  {
    assert WordAt("Казино акция", 0, "казино");
  }

  /** A word glued to other text, after a prefix, is still found. */
  lemma EmbeddedWordRejected()
    ensures TitleValidation("title").Call(map["title" := "Курс: дешевоXXX"]) == Some(BannedWordsError)
  {
    assert WordAt("дешево", 0, "дешево");
    assert RegexMatches("дешево");
    RejectedAfterAppend("дешево", "XXX");
    RejectedAfterPrepend("Курс: ", "дешево" + "XXX");
    assert "Курс: " + ("дешево" + "XXX") == "Курс: дешевоXXX";
  }

  /** A banned word on the second line is not seen. */
  lemma SecondLineNotChecked()
    ensures TitleValidation("title").Call(map["title" := "Астрономия\nказино"]) == None
  {
    EveryBannedWordHasKeyLetter();
    var t := "Астрономия";
    assert forall j :: 0 <= j < |t| ==> Lower(t[j]) !in KeyLetters;
    AcceptedWhenLettersAbsent(t, KeyLetters);
    HiddenAfterNewline(t, "казино");
    assert t + "\n" + "казино" == "Астрономия\nказино";
  }
}
