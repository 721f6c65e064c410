/** The placeholder substitution `parseDeck` applies to the template's entry
    file: every `{{DECKDECKGO_TITLE}}` becomes `test`, then every
    `{{DECKDECKGO_AUTHOR}}` becomes `david`. */
module DeckContent {
  import opened Text

  const TitleToken: string := "{{DECKDECKGO_TITLE}}"
  const AuthorToken: string := "{{DECKDECKGO_AUTHOR}}"
  const TitleValue: string := "test"
  const AuthorValue: string := "david"

  predicate AllLowerCase(s: string)
  {
    forall i :: 0 <= i < |s| ==> 'a' <= s[i] <= 'z'
  }

  predicate NoLowerCase(s: string)
  {
    forall i :: 0 <= i < |s| ==> !('a' <= s[i] <= 'z')
  }

  lemma LowerCaseApart(a: string, b: string)
    requires AllLowerCase(a) && NoLowerCase(b)
    ensures NoSharedChar(a, b)
  {
  }

  /** The two placeholders and their values share no character (the values are
      lower case, the placeholders upper case and braces). */
  lemma ValuesAvoidPlaceholders()
    ensures NoSharedChar(TitleValue, TitleToken)
    ensures NoSharedChar(AuthorValue, AuthorToken)
    ensures NoSharedChar(AuthorValue, TitleToken)
    ensures NoSharedChar(TitleValue, AuthorToken)
  {
    LowerCaseApart(TitleValue, TitleToken);
    LowerCaseApart(AuthorValue, AuthorToken);
    LowerCaseApart(AuthorValue, TitleToken);
    LowerCaseApart(TitleValue, AuthorToken);
  }

  /** The entry file after both global replacements, title first, then author. No
      placeholder survives. */
  function Materialize(data: string): (result: string)
    ensures !Occurs(result, TitleToken) && !Occurs(result, AuthorToken)
  {
    var titled := ReplaceAll(data, TitleToken, TitleValue);
    ValuesAvoidPlaceholders();
    NoOccurrenceAfterReplaceAll(data, TitleToken, TitleValue);
    AbsenceKeptByReplaceAll(titled, AuthorToken, AuthorValue, TitleToken);
    NoOccurrenceAfterReplaceAll(titled, AuthorToken, AuthorValue);
    ReplaceAll(titled, AuthorToken, AuthorValue)
  }

  /** The text around the placeholders is kept: the materialised file is the
      input split at the title and joined with its value, then split at the
      author and joined with its value. */
  lemma MaterializeIsSplitJoin(data: string)
    ensures Materialize(data) == Join(Split(Join(Split(data, TitleToken), TitleValue), AuthorToken), AuthorValue)
  {
    var titled := ReplaceAll(data, TitleToken, TitleValue);
    ReplaceAllIsSplitJoin(data, TitleToken, TitleValue);
    ReplaceAllIsSplitJoin(titled, AuthorToken, AuthorValue);
  }

  /** A file without placeholders is written back unchanged. */
  lemma MaterializeKeepsPlainFile(data: string)
    requires !Occurs(data, TitleToken) && !Occurs(data, AuthorToken)
    ensures Materialize(data) == data
  {
    ReplaceAllWithoutOccurrence(data, TitleToken, TitleValue);
    ReplaceAllWithoutOccurrence(data, AuthorToken, AuthorValue);
  }
}
