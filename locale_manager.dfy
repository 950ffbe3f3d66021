/**
 * The app's language setting: two supported languages, English by
 * default, parsed case-insensitively from a locale identifier.
 */
module Locale {
  import opened CoreTypes

  /** LocaleManager.LanguageCode, an Int-backed enumeration. */
  datatype LanguageCode = En | Ko {
    function RawValue(): int {
      match this
      case En => 0
      case Ko => 1
    }
  }

  /** The lower-case form of a character: ASCII capitals become small
      letters, everything else stays. */
  function LowerChar(c: char): (l: char)
    ensures 'A' <= c <= 'Z' ==> l as int == c as int + 32
    ensures !('A' <= c <= 'Z') ==> l == c
  {
    if 'A' <= c <= 'Z' then (c as int + 32) as char else c
  }

  /** String.lowercased(), on ASCII letters. */
  function Lowercased(s: string): (r: string)
    ensures |r| == |s|
    ensures forall i :: 0 <= i < |s| ==> r[i] == LowerChar(s[i])
  {
    if |s| == 0 then [] else [LowerChar(s[0])] + Lowercased(s[1..])
  }

  /** LanguageCode(identifier:): "ko" or "en" in any letter case; any
      other identifier has no language code. */
  function FromIdentifier(identifier: string): (code: Option<LanguageCode>)
    ensures code.Some? <==> Lowercased(identifier) in {"ko", "en"}
    ensures code.Some? ==> |identifier| == 2 && (code.value == Ko <==> LowerChar(identifier[0]) == 'k')
  {
    if Lowercased(identifier) == "ko" then Some(Ko)
    else if Lowercased(identifier) == "en" then Some(En)
    else None
  }

  /** A character lower-cases to a given small letter exactly when it is
      that letter or its capital. */
  lemma LowerCharIs(c: char, small: char)
    requires 'a' <= small <= 'z'
    ensures LowerChar(c) == small <==> c == small || c as int == small as int - 32
  {
  }

  /** The identifiers that parse, and to what: exactly the four spellings
      of "ko" and the four spellings of "en". */
  lemma {:induction false} IdentifierParses(identifier: string)
    ensures FromIdentifier(identifier) == Some(Ko) <==> identifier in {"ko", "Ko", "kO", "KO"}
    ensures FromIdentifier(identifier) == Some(En) <==> identifier in {"en", "En", "eN", "EN"}
    ensures FromIdentifier(identifier) == None <==>
      identifier !in {"ko", "Ko", "kO", "KO", "en", "En", "eN", "EN"}
  {
    var lower := Lowercased(identifier);
    if |identifier| == 2 {
      LowerCharIs(identifier[0], 'k');
      LowerCharIs(identifier[1], 'o');
      LowerCharIs(identifier[0], 'e');
      LowerCharIs(identifier[1], 'n');
      assert lower == [LowerChar(identifier[0]), LowerChar(identifier[1])];
      assert identifier == [identifier[0], identifier[1]];
    } else {
      assert |lower| != 2;
    }
  }

  /** The language manager: its language code is English and is never
      changed (a private stored property that no code assigns, hence a
      constant field here). */
  class LocaleManager {
    const languageCode: LanguageCode := En

    constructor ()
      ensures languageCode == En
    {
    }

    /** currentLanguageCode */
    function CurrentLanguageCode(): (code: LanguageCode)
      ensures code == En && code.RawValue() == 0
    {
      languageCode
    }
  }

  /** A fresh manager reports English, raw value 0. */
  method DefaultLanguage() returns (code: LanguageCode)
    ensures code == En && code.RawValue() == 0
  {
    var manager := new LocaleManager();
    code := manager.CurrentLanguageCode();
  }
}
