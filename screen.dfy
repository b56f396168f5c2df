/** The state of the `ContentView` screen that feeds the generator
    (ContentView.swift, lines 36-44), its two coupled toggles (lines 73-98)
    and the generate button (lines 101-103). Layout, fonts, the slider and
    the clipboard are not modelled. */
module Screen {
  import opened Alphabets
  import opened Generation

  class ContentView {
    /** `Int(passwordLength)`: the slider runs over 1...20 in steps of 1. */
    var passwordLength: int
    var generatedPassword: string
    var includeSymbols: bool
    var numbersOnly: bool

    /** The slider's range, and the two toggles never on together. */
    ghost predicate Valid()
      reads this
    {
      1 <= passwordLength <= 20 && !(includeSymbols && numbersOnly)
    }

    /** The generator built from the current screen state. */
    function Generator(): (g: PasswordGenerator)
      reads this
    {
      PasswordGenerator(passwordLength, includeSymbols, numbersOnly)
    }

    /** The initial `@State` values: length 8, no password yet, symbols on,
        numbers-only off. */
    constructor ()
      ensures Valid()
      ensures passwordLength == 8 && generatedPassword == ""
      ensures includeSymbols && !numbersOnly
    {
      passwordLength := 8;
      generatedPassword := "";
      includeSymbols := true;
      numbersOnly := false;
    }

    /** The symbols toggle is set to `newValue`; when that is a change to on,
        its `onChange` handler clears numbers-only. Clearing numbers-only
        fires that toggle's handler with `false`, which does nothing. */
    method SetIncludeSymbols(newValue: bool)
      requires Valid()
      modifies this`includeSymbols, this`numbersOnly
      ensures Valid()
      ensures includeSymbols == newValue
      ensures numbersOnly == (if newValue then false else old(numbersOnly))
    {
      if includeSymbols != newValue {
        includeSymbols := newValue;
        if newValue {
          numbersOnly := false;
        }
      }
    }

    /** The numbers-only toggle is set to `newValue`; when that is a change
        to on, its `onChange` handler clears the symbols toggle. */
    method SetNumbersOnly(newValue: bool)
      requires Valid()
      modifies this`includeSymbols, this`numbersOnly
      ensures Valid()
      ensures numbersOnly == newValue
      ensures includeSymbols == (if newValue then false else old(includeSymbols))
    {
      if numbersOnly != newValue {
        numbersOnly := newValue;
        if newValue {
          includeSymbols := false;
        }
      }
    }

    /** The generate button: a fresh password from the current settings
        replaces the displayed one. Because the toggles are never both on,
        symbols can appear exactly when the symbols toggle is on. */
    method GeneratePressed()
      requires Valid()
      modifies this`generatedPassword
      ensures Valid()
      ensures IsPossibleOutput(Generator(), generatedPassword)
      ensures |generatedPassword| == passwordLength
      ensures !includeSymbols ==>
                forall k :: 0 <= k < |generatedPassword| ==> IsAlphanumeric(generatedPassword[k])
    {
      generatedPassword := Generator().Generate();
      if !includeSymbols {
        NoSymbolUnlessEnabled(Generator(), generatedPassword);
      }
    }
  }

  /** On a valid screen the numbers-only precedence never has to break a
      tie: the selected alphabet contains symbols exactly when the symbols
      toggle is on. */
  lemma SymbolsFollowToggle(includeSymbols: bool, numbersOnly: bool)
    requires !(includeSymbols && numbersOnly)
    ensures (exists c :: c in Select(includeSymbols, numbersOnly) && !IsAlphanumeric(c))
              <==> includeSymbols
  {
    SymbolsIffEnabled(includeSymbols, numbersOnly);
  }
}
