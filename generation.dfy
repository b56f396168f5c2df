/** The `PasswordGenerator` value type and its `generate()` method
    (ContentView.swift, lines 8-32). */
module Generation {
  import opened Alphabets

  datatype Option<T> = None | Some(value: T)

  /** A uniformly random element of `s`, or `None` when `s` is empty, as the
      standard library's `randomElement()` promises. Which index is drawn is
      left open: the model keeps only that it is a valid one. */
  method RandomElement(s: string) returns (r: Option<char>)
    ensures r.None? <==> |s| == 0
    ensures r.Some? ==> r.value in s
  {
    if |s| == 0 {
      r := None;
    } else {
      var i :| 0 <= i < |s|;
      r := Some(s[i]);
    }
  }

  /** What one call of `generate()` may return for a given configuration:
      exactly `length` characters, each drawn from the selected alphabet,
      with no further constraint on which ones or in what mix. */
  ghost predicate IsPossibleOutput(g: PasswordGenerator, password: string)
  {
    |password| == g.length &&
    forall k :: 0 <= k < |password| ==> password[k] in g.Characters()
  }

  datatype PasswordGenerator = PasswordGenerator(length: int, includeSymbols: bool, numbersOnly: bool)
  {
    /** The alphabet `generate()` selects from its two flags. */
    function Characters(): (alphabet: string)
    {
      Select(includeSymbols, numbersOnly)
    }

    /** Appends one random character of the selected alphabet per pass of
        `0..<length`; forming that range traps on a negative length, hence
        the precondition. */
    method Generate() returns (password: string)
      requires length >= 0
      ensures IsPossibleOutput(this, password)
    {
      var characters := Characters();
      AlphabetNonEmpty(includeSymbols, numbersOnly);
      password := "";
      var i := 0;
      while i < length
        invariant 0 <= i <= length
        invariant |password| == i
        invariant forall k :: 0 <= k < |password| ==> password[k] in characters
      {
        var character := RandomElement(characters);
        if character.Some? {
          password := password + [character.value];
        }
        i := i + 1;
      }
    }
  }

  /** Length zero gives the empty string, for every flag combination. */
  lemma ZeroLengthIsEmpty(g: PasswordGenerator, password: string)
    requires g.length == 0 && IsPossibleOutput(g, password)
    ensures password == ""
  {
  }

  /** With `numbersOnly` set every character is a digit, whatever
      `includeSymbols` says. */
  lemma NumbersOnlyGivesDigits(g: PasswordGenerator, password: string)
    requires g.numbersOnly && IsPossibleOutput(g, password)
    ensures forall k :: 0 <= k < |password| ==> IsDigit(password[k])
  {
    forall k | 0 <= k < |password| ensures IsDigit(password[k]) {
      NumbersOnlyAlphabet(g.includeSymbols, password[k]);
    }
  }

  /** Unless `includeSymbols && !numbersOnly`, a password holds letters and
      digits only. */
  lemma NoSymbolUnlessEnabled(g: PasswordGenerator, password: string)
    requires !(g.includeSymbols && !g.numbersOnly) && IsPossibleOutput(g, password)
    ensures forall k :: 0 <= k < |password| ==> IsAlphanumeric(password[k])
  {
    SymbolsIffEnabled(g.includeSymbols, g.numbersOnly);
  }

  /** With symbols enabled, every character is a letter, a digit or one of
      the 26 symbols. */
  lemma SymbolPasswordCharacters(g: PasswordGenerator, password: string)
    requires g.includeSymbols && !g.numbersOnly && IsPossibleOutput(g, password)
    ensures forall k :: 0 <= k < |password| ==> IsAlphanumeric(password[k]) || IsSymbol(password[k])
  {
    forall k | 0 <= k < |password|
      ensures IsAlphanumeric(password[k]) || IsSymbol(password[k])
    {
      SymbolAlphabet(password[k]);
    }
  }

  /** There is no minimum-composition rule: a password made of digits alone
      is a possible output under every flag combination, symbols enabled or
      not. */
  lemma AllDigitPasswordsPossible(g: PasswordGenerator, password: string)
    requires g.length >= 0 && |password| == g.length
    requires forall k :: 0 <= k < |password| ==> IsDigit(password[k])
    ensures IsPossibleOutput(g, password)
  {
    AlphabetNonEmpty(g.includeSymbols, g.numbersOnly);
  }
}
