/** The prediction prompt template: a piece of text with four named placeholders. */
module Templates {
  import opened Strings

  const HistoryPlaceholder := "{{history}}"
  const DecisionPromptPlaceholder := "{{decision_prompt}}"
  const ChoicesPlaceholder := "{{choices}}"
  const UserInputPlaceholder := "{{user_input}}"

  /** The template text, as loaded. */
  datatype DecisionPromptTemplate = DecisionPromptTemplate(content: string) {

    /** Substitutes the four placeholders, one after the other, each with `str::replace`. */
    function Format(history: string, decisionPrompt: string, choices: string, userInput: string): string {
      var afterHistory := ReplaceAll(content, HistoryPlaceholder, history);
      var afterPrompt := ReplaceAll(afterHistory, DecisionPromptPlaceholder, decisionPrompt);
      var afterChoices := ReplaceAll(afterPrompt, ChoicesPlaceholder, choices);
      ReplaceAll(afterChoices, UserInputPlaceholder, userInput)
    }
  }

  /** `DecisionPromptTemplate::new` keeps the text as it is. */
  function New(content: string): (t: DecisionPromptTemplate)
    ensures t.content == content
  {
    DecisionPromptTemplate(content)
  }

  predicate HasNoPlaceholder(s: string) {
    && !Contains(s, HistoryPlaceholder)
    && !Contains(s, DecisionPromptPlaceholder)
    && !Contains(s, ChoicesPlaceholder)
    && !Contains(s, UserInputPlaceholder)
  }

  /** A template without any of the four placeholders formats to itself, whatever the values;
      in particular unknown `{{...}}` markers are left as they are. */
  lemma FormatWithoutPlaceholders(t: DecisionPromptTemplate, history: string, decisionPrompt: string, choices: string, userInput: string)
    requires HasNoPlaceholder(t.content)
    ensures t.Format(history, decisionPrompt, choices, userInput) == t.content
  {
    ReplaceAllAbsent(t.content, HistoryPlaceholder, history);
    ReplaceAllAbsent(t.content, DecisionPromptPlaceholder, decisionPrompt);
    ReplaceAllAbsent(t.content, ChoicesPlaceholder, choices);
    ReplaceAllAbsent(t.content, UserInputPlaceholder, userInput);
  }

  /** Each substitution step cuts its input at every occurrence of its placeholder, scanned
      left to right without overlap, and puts the value in each cut: the pieces hold no
      placeholder, and joined back with the placeholder they give the input again. The first
      step is shown; the three later ones are the same step on the previous step's output. */
  lemma FormatReplacesEveryOccurrence(t: DecisionPromptTemplate, history: string)
    ensures var pieces := Split(t.content, HistoryPlaceholder);
      && ReplaceAll(t.content, HistoryPlaceholder, history) == Join(pieces, history)
      && Join(pieces, HistoryPlaceholder) == t.content
      && forall k :: 0 <= k < |pieces| ==> !Contains(pieces[k], HistoryPlaceholder)
  {
    ReplaceAllIsJoinOfSplit(t.content, HistoryPlaceholder, history);
    JoinSplit(t.content, HistoryPlaceholder);
    SplitPiecesAvoidPattern(t.content, HistoryPlaceholder);
  }

  /** The substitutions run in a fixed order (history, decision prompt, choices, user input),
      and each later one rescans the output of the earlier ones: a user-input placeholder
      inside the history value is replaced by the user input. */
  lemma FormatRescansEarlierValues(decisionPrompt: string, choices: string, userInput: string)
    ensures New(HistoryPlaceholder).Format(UserInputPlaceholder, decisionPrompt, choices, userInput) == userInput
  {
    var t := New(HistoryPlaceholder);
    assert t.content[..|HistoryPlaceholder|] == HistoryPlaceholder;
    assert ReplaceAll(t.content, HistoryPlaceholder, UserInputPlaceholder) == UserInputPlaceholder + ReplaceAll([], HistoryPlaceholder, UserInputPlaceholder);
    UserInputPlaceholderAvoidsOthers();
    ReplaceAllAbsent(UserInputPlaceholder, DecisionPromptPlaceholder, decisionPrompt);
    ReplaceAllAbsent(UserInputPlaceholder, ChoicesPlaceholder, choices);
    assert UserInputPlaceholder[..|UserInputPlaceholder|] == UserInputPlaceholder;
    assert ReplaceAll(UserInputPlaceholder, UserInputPlaceholder, userInput) == userInput + ReplaceAll([], UserInputPlaceholder, userInput);
    assert ReplaceAll(t.content, HistoryPlaceholder, UserInputPlaceholder) == UserInputPlaceholder;
    assert ReplaceAll(UserInputPlaceholder, DecisionPromptPlaceholder, decisionPrompt) == UserInputPlaceholder;
    assert ReplaceAll(UserInputPlaceholder, ChoicesPlaceholder, choices) == UserInputPlaceholder;
    assert ReplaceAll(UserInputPlaceholder, UserInputPlaceholder, userInput) == userInput;
  }

  /** None of the other three placeholders occurs in the user-input placeholder. */
  lemma UserInputPlaceholderAvoidsOthers()
    ensures !Contains(UserInputPlaceholder, HistoryPlaceholder)
    ensures !Contains(UserInputPlaceholder, DecisionPromptPlaceholder)
    ensures !Contains(UserInputPlaceholder, ChoicesPlaceholder)
  {
    // Both eleven-character placeholders would have to fit at 0..3, where the user-input
    // placeholder has "user" in place of their third characters 'h' and 'c'.
    forall i | 0 <= i <= |UserInputPlaceholder| ensures !OccursAt(UserInputPlaceholder, HistoryPlaceholder, i) {
      if i + |HistoryPlaceholder| <= |UserInputPlaceholder| {
        assert UserInputPlaceholder[i + 2] != 'h';
        assert UserInputPlaceholder[i..i + |HistoryPlaceholder|][2] == UserInputPlaceholder[i + 2];
      }
    }
    forall i | 0 <= i <= |UserInputPlaceholder| ensures !OccursAt(UserInputPlaceholder, ChoicesPlaceholder, i) {
      if i + |ChoicesPlaceholder| <= |UserInputPlaceholder| {
        assert UserInputPlaceholder[i + 2] != 'c';
        assert UserInputPlaceholder[i..i + |ChoicesPlaceholder|][2] == UserInputPlaceholder[i + 2];
      }
    }
  }

  /** The converse of `FormatRescansEarlierValues`: an earlier placeholder inside a later
      value is left as it is, because its substitution has already run. */
  lemma FormatKeepsEarlierPlaceholders(history: string, decisionPrompt: string, choices: string)
    ensures New(UserInputPlaceholder).Format(history, decisionPrompt, choices, HistoryPlaceholder) == HistoryPlaceholder
  {
    UserInputPlaceholderAvoidsOthers();
    ReplaceAllAbsent(UserInputPlaceholder, HistoryPlaceholder, history);
    ReplaceAllAbsent(UserInputPlaceholder, DecisionPromptPlaceholder, decisionPrompt);
    ReplaceAllAbsent(UserInputPlaceholder, ChoicesPlaceholder, choices);
    assert ReplaceAll(UserInputPlaceholder, UserInputPlaceholder, HistoryPlaceholder) == HistoryPlaceholder by {
      assert UserInputPlaceholder[..|UserInputPlaceholder|] == UserInputPlaceholder;
      assert ReplaceAll(UserInputPlaceholder, UserInputPlaceholder, HistoryPlaceholder) == HistoryPlaceholder + ReplaceAll([], UserInputPlaceholder, HistoryPlaceholder);
    }
  }
}
