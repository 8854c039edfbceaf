/**
 * The names the key parser accepts, and for which key: exactly the name
 * the printer gives each declared key and the names of the deprecated
 * constants, up to case. Everything the parser's table accepts is a name
 * of the key it returns (`LookupSound`), every such name is accepted
 * (`RoundTrip`, `DeprecatedNamesParse`), and every other string is
 * rejected (`ParseRejectsOthers`).
 */
module KeyNames {
  import opened Wrappers
  import opened Keys

  /** Whether `lower` is a lower-cased name of `k`: the name the printer
      gives it, or the name of a deprecated constant aliasing it. */
  predicate NamesKey(lower: string, k: Key)
  {
    || (IsValid(k) && lower == ToLower(String(k)))
    || exists i :: 0 <= i < |DeprecatedConstants| && DeprecatedConstants[i].1 == k && ToLower(DeprecatedConstants[i].0) == lower
  }

  /** The parser accepts exactly the keys' names and the deprecated names,
      up to case, and reads each as the key it names. */
  lemma ParseExactlyNames(s: string, k: Key)
    ensures Parse(s) == Some(k) <==> NamesKey(ToLower(s), k)
  {
    if Parse(s) == Some(k) {
      LookupSound(ToLower(s), k);
    }
    if IsValid(k) && ToLower(s) == ToLower(String(k)) {
      RoundTrip(k);
    } else if NamesKey(ToLower(s), k) {
      var i :| 0 <= i < |DeprecatedConstants| && DeprecatedConstants[i].1 == k && ToLower(DeprecatedConstants[i].0) == ToLower(s);
      DeprecatedNamesParse(i);
    }
  }

  /** The parser rejects every string that names no key. */
  lemma ParseRejectsOthers(s: string)
    requires forall k :: !NamesKey(ToLower(s), k)
    ensures Parse(s) == None
  {
    if Parse(s).Some? {
      LookupSound(ToLower(s), Parse(s).value);
    }
  }

  /** The deprecated constant at `i` names the key it aliases. */
  lemma DeprecatedNames(i: nat)
    requires i < |DeprecatedConstants|
    ensures NamesKey(ToLower(DeprecatedConstants[i].0), DeprecatedConstants[i].1)
  {
  }

  /** Whatever the parser's table yields is a name of that key. */
  lemma {:induction false} LookupSound(lower: string, k: Key)
    requires Lookup(lower) == Some(k)
    ensures NamesKey(lower, k)
  {
    match lower
    case "0" => SoundAlias0(lower, k);
    case "1" => SoundAlias1(lower, k);
    case "2" => SoundAlias2(lower, k);
    case "3" => SoundAlias3(lower, k);
    case "4" => SoundAlias4(lower, k);
    case "5" => SoundAlias5(lower, k);
    case "6" => SoundAlias6(lower, k);
    case "7" => SoundAlias7(lower, k);
    case "8" => SoundAlias8(lower, k);
    case "9" => SoundAlias9(lower, k);
    case "a" => SoundA(lower, k);
    case "b" => SoundB(lower, k);
    case "c" => SoundC(lower, k);
    case "d" => SoundD(lower, k);
    case "e" => SoundE(lower, k);
    case "f" => SoundF(lower, k);
    case "g" => SoundG(lower, k);
    case "h" => SoundH(lower, k);
    case "i" => SoundI(lower, k);
    case "j" => SoundJ(lower, k);
    case _ => LookupSoundPart1(lower, k);
  }

  lemma {:induction false} LookupSoundPart1(lower: string, k: Key)
    requires LookupPart1(lower) == Some(k)
    ensures NamesKey(lower, k)
  {
    match lower
    case "k" => SoundK(lower, k);
    case "l" => SoundL(lower, k);
    case "m" => SoundM(lower, k);
    case "n" => SoundN(lower, k);
    case "o" => SoundO(lower, k);
    case "p" => SoundP(lower, k);
    case "q" => SoundQ(lower, k);
    case "r" => SoundR(lower, k);
    case "s" => SoundS(lower, k);
    case "t" => SoundT(lower, k);
    case "u" => SoundU(lower, k);
    case "v" => SoundV(lower, k);
    case "w" => SoundW(lower, k);
    case "x" => SoundX(lower, k);
    case "y" => SoundY(lower, k);
    case "z" => SoundZ(lower, k);
    case "alt" => SoundAlt(lower, k);
    case "altleft" => SoundAltLeft(lower, k);
    case "altright" => SoundAltRight(lower, k);
    case "apostrophe" => SoundAliasApostrophe(lower, k);
    case _ => LookupSoundPart2(lower, k);
  }

  lemma {:induction false} LookupSoundPart2(lower: string, k: Key)
    requires LookupPart2(lower) == Some(k)
    ensures NamesKey(lower, k)
  {
    match lower
    case "arrowdown" => SoundArrowDown(lower, k);
    case "arrowleft" => SoundArrowLeft(lower, k);
    case "arrowright" => SoundArrowRight(lower, k);
    case "arrowup" => SoundArrowUp(lower, k);
    case "backquote" => SoundBackquote(lower, k);
    case "backslash" => SoundBackslash(lower, k);
    case "backspace" => SoundBackspace(lower, k);
    case "bracketleft" => SoundBracketLeft(lower, k);
    case "bracketright" => SoundBracketRight(lower, k);
    case "capslock" => SoundCapsLock(lower, k);
    case "comma" => SoundComma(lower, k);
    case "contextmenu" => SoundContextMenu(lower, k);
    case "control" => SoundControl(lower, k);
    case "controlleft" => SoundControlLeft(lower, k);
    case "controlright" => SoundControlRight(lower, k);
    case "delete" => SoundDelete(lower, k);
    case "digit0" => SoundDigit0(lower, k);
    case "digit1" => SoundDigit1(lower, k);
    case "digit2" => SoundDigit2(lower, k);
    case "digit3" => SoundDigit3(lower, k);
    case _ => LookupSoundPart3(lower, k);
  }

  lemma {:induction false} LookupSoundPart3(lower: string, k: Key)
    requires LookupPart3(lower) == Some(k)
    ensures NamesKey(lower, k)
  {
    match lower
    case "digit4" => SoundDigit4(lower, k);
    case "digit5" => SoundDigit5(lower, k);
    case "digit6" => SoundDigit6(lower, k);
    case "digit7" => SoundDigit7(lower, k);
    case "digit8" => SoundDigit8(lower, k);
    case "digit9" => SoundDigit9(lower, k);
    case "down" => SoundAliasDown(lower, k);
    case "end" => SoundEnd(lower, k);
    case "enter" => SoundEnter(lower, k);
    case "equal" => SoundEqual(lower, k);
    case "escape" => SoundEscape(lower, k);
    case "f1" => SoundF1(lower, k);
    case "f2" => SoundF2(lower, k);
    case "f3" => SoundF3(lower, k);
    case "f4" => SoundF4(lower, k);
    case "f5" => SoundF5(lower, k);
    case "f6" => SoundF6(lower, k);
    case "f7" => SoundF7(lower, k);
    case "f8" => SoundF8(lower, k);
    case "f9" => SoundF9(lower, k);
    case _ => LookupSoundPart4(lower, k);
  }

  lemma {:induction false} LookupSoundPart4(lower: string, k: Key)
    requires LookupPart4(lower) == Some(k)
    ensures NamesKey(lower, k)
  {
    match lower
    case "f10" => SoundF10(lower, k);
    case "f11" => SoundF11(lower, k);
    case "f12" => SoundF12(lower, k);
    case "f13" => SoundF13(lower, k);
    case "f14" => SoundF14(lower, k);
    case "f15" => SoundF15(lower, k);
    case "f16" => SoundF16(lower, k);
    case "f17" => SoundF17(lower, k);
    case "f18" => SoundF18(lower, k);
    case "f19" => SoundF19(lower, k);
    case "f20" => SoundF20(lower, k);
    case "f21" => SoundF21(lower, k);
    case "f22" => SoundF22(lower, k);
    case "f23" => SoundF23(lower, k);
    case "f24" => SoundF24(lower, k);
    case "graveaccent" => SoundAliasGraveAccent(lower, k);
    case "home" => SoundHome(lower, k);
    case "insert" => SoundInsert(lower, k);
    case "intlbackslash" => SoundIntlBackslash(lower, k);
    case "kp0" => SoundAliasKP0(lower, k);
    case _ => LookupSoundPart5(lower, k);
  }

  lemma {:induction false} LookupSoundPart5(lower: string, k: Key)
    requires LookupPart5(lower) == Some(k)
    ensures NamesKey(lower, k)
  {
    match lower
    case "kp1" => SoundAliasKP1(lower, k);
    case "kp2" => SoundAliasKP2(lower, k);
    case "kp3" => SoundAliasKP3(lower, k);
    case "kp4" => SoundAliasKP4(lower, k);
    case "kp5" => SoundAliasKP5(lower, k);
    case "kp6" => SoundAliasKP6(lower, k);
    case "kp7" => SoundAliasKP7(lower, k);
    case "kp8" => SoundAliasKP8(lower, k);
    case "kp9" => SoundAliasKP9(lower, k);
    case "kpadd" => SoundAliasKPAdd(lower, k);
    case "kpdecimal" => SoundAliasKPDecimal(lower, k);
    case "kpdivide" => SoundAliasKPDivide(lower, k);
    case "kpenter" => SoundAliasKPEnter(lower, k);
    case "kpequal" => SoundAliasKPEqual(lower, k);
    case "kpmultiply" => SoundAliasKPMultiply(lower, k);
    case "kpsubtract" => SoundAliasKPSubtract(lower, k);
    case "left" => SoundAliasLeft(lower, k);
    case "leftbracket" => SoundAliasLeftBracket(lower, k);
    case "menu" => SoundAliasMenu(lower, k);
    case "meta" => SoundMeta(lower, k);
    case _ => LookupSoundPart6(lower, k);
  }

  lemma {:induction false} LookupSoundPart6(lower: string, k: Key)
    requires LookupPart6(lower) == Some(k)
    ensures NamesKey(lower, k)
  {
    match lower
    case "metaleft" => SoundMetaLeft(lower, k);
    case "metaright" => SoundMetaRight(lower, k);
    case "minus" => SoundMinus(lower, k);
    case "numlock" => SoundNumLock(lower, k);
    case "numpad0" => SoundNumpad0(lower, k);
    case "numpad1" => SoundNumpad1(lower, k);
    case "numpad2" => SoundNumpad2(lower, k);
    case "numpad3" => SoundNumpad3(lower, k);
    case "numpad4" => SoundNumpad4(lower, k);
    case "numpad5" => SoundNumpad5(lower, k);
    case "numpad6" => SoundNumpad6(lower, k);
    case "numpad7" => SoundNumpad7(lower, k);
    case "numpad8" => SoundNumpad8(lower, k);
    case "numpad9" => SoundNumpad9(lower, k);
    case "numpadadd" => SoundNumpadAdd(lower, k);
    case "numpaddecimal" => SoundNumpadDecimal(lower, k);
    case "numpaddivide" => SoundNumpadDivide(lower, k);
    case "numpadenter" => SoundNumpadEnter(lower, k);
    case "numpadequal" => SoundNumpadEqual(lower, k);
    case "numpadmultiply" => SoundNumpadMultiply(lower, k);
    case _ => LookupSoundPart7(lower, k);
  }

  lemma {:induction false} LookupSoundPart7(lower: string, k: Key)
    requires LookupPart7(lower) == Some(k)
    ensures NamesKey(lower, k)
  {
    match lower
    case "numpadsubtract" => SoundNumpadSubtract(lower, k);
    case "pagedown" => SoundPageDown(lower, k);
    case "pageup" => SoundPageUp(lower, k);
    case "pause" => SoundPause(lower, k);
    case "period" => SoundPeriod(lower, k);
    case "printscreen" => SoundPrintScreen(lower, k);
    case "quote" => SoundQuote(lower, k);
    case "right" => SoundAliasRight(lower, k);
    case "rightbracket" => SoundAliasRightBracket(lower, k);
    case "scrolllock" => SoundScrollLock(lower, k);
    case "semicolon" => SoundSemicolon(lower, k);
    case "shift" => SoundShift(lower, k);
    case "shiftleft" => SoundShiftLeft(lower, k);
    case "shiftright" => SoundShiftRight(lower, k);
    case "slash" => SoundSlash(lower, k);
    case "space" => SoundSpace(lower, k);
    case "tab" => SoundTab(lower, k);
    case "up" => SoundAliasUp(lower, k);
    case _ =>
  }


  // One fact per name in the table: it names the key the table gives.

  lemma NamesAlias0() ensures NamesKey("0", Digit0) { assert DeprecatedConstants[0] == ("0", Digit0); assert ToLower("0") == "0"; DeprecatedNames(0); }
  lemma NamesAlias1() ensures NamesKey("1", Digit1) { assert DeprecatedConstants[1] == ("1", Digit1); assert ToLower("1") == "1"; DeprecatedNames(1); }
  lemma NamesAlias2() ensures NamesKey("2", Digit2) { assert DeprecatedConstants[2] == ("2", Digit2); assert ToLower("2") == "2"; DeprecatedNames(2); }
  lemma NamesAlias3() ensures NamesKey("3", Digit3) { assert DeprecatedConstants[3] == ("3", Digit3); assert ToLower("3") == "3"; DeprecatedNames(3); }
  lemma NamesAlias4() ensures NamesKey("4", Digit4) { assert DeprecatedConstants[4] == ("4", Digit4); assert ToLower("4") == "4"; DeprecatedNames(4); }
  lemma NamesAlias5() ensures NamesKey("5", Digit5) { assert DeprecatedConstants[5] == ("5", Digit5); assert ToLower("5") == "5"; DeprecatedNames(5); }
  lemma NamesAlias6() ensures NamesKey("6", Digit6) { assert DeprecatedConstants[6] == ("6", Digit6); assert ToLower("6") == "6"; DeprecatedNames(6); }
  lemma NamesAlias7() ensures NamesKey("7", Digit7) { assert DeprecatedConstants[7] == ("7", Digit7); assert ToLower("7") == "7"; DeprecatedNames(7); }
  lemma NamesAlias8() ensures NamesKey("8", Digit8) { assert DeprecatedConstants[8] == ("8", Digit8); assert ToLower("8") == "8"; DeprecatedNames(8); }
  lemma NamesAlias9() ensures NamesKey("9", Digit9) { assert DeprecatedConstants[9] == ("9", Digit9); assert ToLower("9") == "9"; DeprecatedNames(9); }
  lemma NamesA() ensures NamesKey("a", A) { assert String(A) == "A"; assert ToLower("A") == "a"; }
  lemma NamesB() ensures NamesKey("b", B) { assert String(B) == "B"; assert ToLower("B") == "b"; }
  lemma NamesC() ensures NamesKey("c", C) { assert String(C) == "C"; assert ToLower("C") == "c"; }
  lemma NamesD() ensures NamesKey("d", D) { assert String(D) == "D"; assert ToLower("D") == "d"; }
  lemma NamesE() ensures NamesKey("e", E) { assert String(E) == "E"; assert ToLower("E") == "e"; }
  lemma NamesF() ensures NamesKey("f", F) { assert String(F) == "F"; assert ToLower("F") == "f"; }
  lemma NamesG() ensures NamesKey("g", G) { assert String(G) == "G"; assert ToLower("G") == "g"; }
  lemma NamesH() ensures NamesKey("h", H) { assert String(H) == "H"; assert ToLower("H") == "h"; }
  lemma NamesI() ensures NamesKey("i", I) { assert String(I) == "I"; assert ToLower("I") == "i"; }
  lemma NamesJ() ensures NamesKey("j", J) { assert String(J) == "J"; assert ToLower("J") == "j"; }
  lemma NamesK() ensures NamesKey("k", K) { assert String(K) == "K"; assert ToLower("K") == "k"; }
  lemma NamesL() ensures NamesKey("l", L) { assert String(L) == "L"; assert ToLower("L") == "l"; }
  lemma NamesM() ensures NamesKey("m", M) { assert String(M) == "M"; assert ToLower("M") == "m"; }
  lemma NamesN() ensures NamesKey("n", N) { assert String(N) == "N"; assert ToLower("N") == "n"; }
  lemma NamesO() ensures NamesKey("o", O) { assert String(O) == "O"; assert ToLower("O") == "o"; }
  lemma NamesP() ensures NamesKey("p", P) { assert String(P) == "P"; assert ToLower("P") == "p"; }
  lemma NamesQ() ensures NamesKey("q", Q) { assert String(Q) == "Q"; assert ToLower("Q") == "q"; }
  lemma NamesR() ensures NamesKey("r", R) { assert String(R) == "R"; assert ToLower("R") == "r"; }
  lemma NamesS() ensures NamesKey("s", S) { assert String(S) == "S"; assert ToLower("S") == "s"; }
  lemma NamesT() ensures NamesKey("t", T) { assert String(T) == "T"; assert ToLower("T") == "t"; }
  lemma NamesU() ensures NamesKey("u", U) { assert String(U) == "U"; assert ToLower("U") == "u"; }
  lemma NamesV() ensures NamesKey("v", V) { assert String(V) == "V"; assert ToLower("V") == "v"; }
  lemma NamesW() ensures NamesKey("w", W) { assert String(W) == "W"; assert ToLower("W") == "w"; }
  lemma NamesX() ensures NamesKey("x", X) { assert String(X) == "X"; assert ToLower("X") == "x"; }
  lemma NamesY() ensures NamesKey("y", Y) { assert String(Y) == "Y"; assert ToLower("Y") == "y"; }
  lemma NamesZ() ensures NamesKey("z", Z) { assert String(Z) == "Z"; assert ToLower("Z") == "z"; }
  lemma NamesAlt() ensures NamesKey("alt", Alt) { assert String(Alt) == "Alt"; assert ToLower("Alt") == "alt"; }
  lemma NamesAltLeft() ensures NamesKey("altleft", AltLeft) { assert String(AltLeft) == "AltLeft"; assert ToLower("AltLeft") == "altleft"; }
  lemma NamesAltRight() ensures NamesKey("altright", AltRight) { assert String(AltRight) == "AltRight"; assert ToLower("AltRight") == "altright"; }
  lemma NamesAliasApostrophe() ensures NamesKey("apostrophe", Quote) { assert DeprecatedConstants[10] == ("Apostrophe", Quote); assert ToLower("Apostrophe") == "apostrophe"; DeprecatedNames(10); }
  lemma NamesArrowDown() ensures NamesKey("arrowdown", ArrowDown) { assert String(ArrowDown) == "ArrowDown"; assert ToLower("ArrowDown") == "arrowdown"; }
  lemma NamesArrowLeft() ensures NamesKey("arrowleft", ArrowLeft) { assert String(ArrowLeft) == "ArrowLeft"; assert ToLower("ArrowLeft") == "arrowleft"; }
  lemma NamesArrowRight() ensures NamesKey("arrowright", ArrowRight) { assert String(ArrowRight) == "ArrowRight"; assert ToLower("ArrowRight") == "arrowright"; }
  lemma NamesArrowUp() ensures NamesKey("arrowup", ArrowUp) { assert String(ArrowUp) == "ArrowUp"; assert ToLower("ArrowUp") == "arrowup"; }
  lemma NamesBackquote() ensures NamesKey("backquote", Backquote) { assert String(Backquote) == "Backquote"; assert ToLower("Backquote") == "backquote"; }
  lemma NamesBackslash() ensures NamesKey("backslash", Backslash) { assert String(Backslash) == "Backslash"; assert ToLower("Backslash") == "backslash"; }
  lemma NamesBackspace() ensures NamesKey("backspace", Backspace) { assert String(Backspace) == "Backspace"; assert ToLower("Backspace") == "backspace"; }
  lemma NamesBracketLeft() ensures NamesKey("bracketleft", BracketLeft) { assert String(BracketLeft) == "BracketLeft"; assert ToLower("BracketLeft") == "bracketleft"; }
  lemma NamesBracketRight() ensures NamesKey("bracketright", BracketRight) { assert String(BracketRight) == "BracketRight"; assert ToLower("BracketRight") == "bracketright"; }
  lemma NamesCapsLock() ensures NamesKey("capslock", CapsLock) { assert String(CapsLock) == "CapsLock"; assert ToLower("CapsLock") == "capslock"; }
  lemma NamesComma() ensures NamesKey("comma", Comma) { assert String(Comma) == "Comma"; assert ToLower("Comma") == "comma"; }
  lemma NamesContextMenu() ensures NamesKey("contextmenu", ContextMenu) { assert String(ContextMenu) == "ContextMenu"; assert ToLower("ContextMenu") == "contextmenu"; }
  lemma NamesControl() ensures NamesKey("control", Control) { assert String(Control) == "Control"; assert ToLower("Control") == "control"; }
  lemma NamesControlLeft() ensures NamesKey("controlleft", ControlLeft) { assert String(ControlLeft) == "ControlLeft"; assert ToLower("ControlLeft") == "controlleft"; }
  lemma NamesControlRight() ensures NamesKey("controlright", ControlRight) { assert String(ControlRight) == "ControlRight"; assert ToLower("ControlRight") == "controlright"; }
  lemma NamesDelete() ensures NamesKey("delete", Delete) { assert String(Delete) == "Delete"; assert ToLower("Delete") == "delete"; }
  lemma NamesDigit0() ensures NamesKey("digit0", Digit0) { assert String(Digit0) == "Digit0"; assert ToLower("Digit0") == "digit0"; }
  lemma NamesDigit1() ensures NamesKey("digit1", Digit1) { assert String(Digit1) == "Digit1"; assert ToLower("Digit1") == "digit1"; }
  lemma NamesDigit2() ensures NamesKey("digit2", Digit2) { assert String(Digit2) == "Digit2"; assert ToLower("Digit2") == "digit2"; }
  lemma NamesDigit3() ensures NamesKey("digit3", Digit3) { assert String(Digit3) == "Digit3"; assert ToLower("Digit3") == "digit3"; }
  lemma NamesDigit4() ensures NamesKey("digit4", Digit4) { assert String(Digit4) == "Digit4"; assert ToLower("Digit4") == "digit4"; }
  lemma NamesDigit5() ensures NamesKey("digit5", Digit5) { assert String(Digit5) == "Digit5"; assert ToLower("Digit5") == "digit5"; }
  lemma NamesDigit6() ensures NamesKey("digit6", Digit6) { assert String(Digit6) == "Digit6"; assert ToLower("Digit6") == "digit6"; }
  lemma NamesDigit7() ensures NamesKey("digit7", Digit7) { assert String(Digit7) == "Digit7"; assert ToLower("Digit7") == "digit7"; }
  lemma NamesDigit8() ensures NamesKey("digit8", Digit8) { assert String(Digit8) == "Digit8"; assert ToLower("Digit8") == "digit8"; }
  lemma NamesDigit9() ensures NamesKey("digit9", Digit9) { assert String(Digit9) == "Digit9"; assert ToLower("Digit9") == "digit9"; }
  lemma NamesAliasDown() ensures NamesKey("down", ArrowDown) { assert DeprecatedConstants[11] == ("Down", ArrowDown); assert ToLower("Down") == "down"; DeprecatedNames(11); }
  lemma NamesEnd() ensures NamesKey("end", End) { assert String(End) == "End"; assert ToLower("End") == "end"; }
  lemma NamesEnter() ensures NamesKey("enter", Enter) { assert String(Enter) == "Enter"; assert ToLower("Enter") == "enter"; }
  lemma NamesEqual() ensures NamesKey("equal", Equal) { assert String(Equal) == "Equal"; assert ToLower("Equal") == "equal"; }
  lemma NamesEscape() ensures NamesKey("escape", Escape) { assert String(Escape) == "Escape"; assert ToLower("Escape") == "escape"; }
  lemma NamesF1() ensures NamesKey("f1", F1) { assert String(F1) == "F1"; assert ToLower("F1") == "f1"; }
  lemma NamesF2() ensures NamesKey("f2", F2) { assert String(F2) == "F2"; assert ToLower("F2") == "f2"; }
  lemma NamesF3() ensures NamesKey("f3", F3) { assert String(F3) == "F3"; assert ToLower("F3") == "f3"; }
  lemma NamesF4() ensures NamesKey("f4", F4) { assert String(F4) == "F4"; assert ToLower("F4") == "f4"; }
  lemma NamesF5() ensures NamesKey("f5", F5) { assert String(F5) == "F5"; assert ToLower("F5") == "f5"; }
  lemma NamesF6() ensures NamesKey("f6", F6) { assert String(F6) == "F6"; assert ToLower("F6") == "f6"; }
  lemma NamesF7() ensures NamesKey("f7", F7) { assert String(F7) == "F7"; assert ToLower("F7") == "f7"; }
  lemma NamesF8() ensures NamesKey("f8", F8) { assert String(F8) == "F8"; assert ToLower("F8") == "f8"; }
  lemma NamesF9() ensures NamesKey("f9", F9) { assert String(F9) == "F9"; assert ToLower("F9") == "f9"; }
  lemma NamesF10() ensures NamesKey("f10", F10) { assert String(F10) == "F10"; assert ToLower("F10") == "f10"; }
  lemma NamesF11() ensures NamesKey("f11", F11) { assert String(F11) == "F11"; assert ToLower("F11") == "f11"; }
  lemma NamesF12() ensures NamesKey("f12", F12) { assert String(F12) == "F12"; assert ToLower("F12") == "f12"; }
  lemma NamesF13() ensures NamesKey("f13", F13) { assert String(F13) == "F13"; assert ToLower("F13") == "f13"; }
  lemma NamesF14() ensures NamesKey("f14", F14) { assert String(F14) == "F14"; assert ToLower("F14") == "f14"; }
  lemma NamesF15() ensures NamesKey("f15", F15) { assert String(F15) == "F15"; assert ToLower("F15") == "f15"; }
  lemma NamesF16() ensures NamesKey("f16", F16) { assert String(F16) == "F16"; assert ToLower("F16") == "f16"; }
  lemma NamesF17() ensures NamesKey("f17", F17) { assert String(F17) == "F17"; assert ToLower("F17") == "f17"; }
  lemma NamesF18() ensures NamesKey("f18", F18) { assert String(F18) == "F18"; assert ToLower("F18") == "f18"; }
  lemma NamesF19() ensures NamesKey("f19", F19) { assert String(F19) == "F19"; assert ToLower("F19") == "f19"; }
  lemma NamesF20() ensures NamesKey("f20", F20) { assert String(F20) == "F20"; assert ToLower("F20") == "f20"; }
  lemma NamesF21() ensures NamesKey("f21", F21) { assert String(F21) == "F21"; assert ToLower("F21") == "f21"; }
  lemma NamesF22() ensures NamesKey("f22", F22) { assert String(F22) == "F22"; assert ToLower("F22") == "f22"; }
  lemma NamesF23() ensures NamesKey("f23", F23) { assert String(F23) == "F23"; assert ToLower("F23") == "f23"; }
  lemma NamesF24() ensures NamesKey("f24", F24) { assert String(F24) == "F24"; assert ToLower("F24") == "f24"; }
  lemma NamesAliasGraveAccent() ensures NamesKey("graveaccent", Backquote) { assert DeprecatedConstants[12] == ("GraveAccent", Backquote); assert ToLower("GraveAccent") == "graveaccent"; DeprecatedNames(12); }
  lemma NamesHome() ensures NamesKey("home", Home) { assert String(Home) == "Home"; assert ToLower("Home") == "home"; }
  lemma NamesInsert() ensures NamesKey("insert", Insert) { assert String(Insert) == "Insert"; assert ToLower("Insert") == "insert"; }
  lemma NamesIntlBackslash() ensures NamesKey("intlbackslash", IntlBackslash) { assert String(IntlBackslash) == "IntlBackslash"; assert ToLower("IntlBackslash") == "intlbackslash"; }
  lemma NamesAliasKP0() ensures NamesKey("kp0", Numpad0) { assert DeprecatedConstants[13] == ("KP0", Numpad0); assert ToLower("KP0") == "kp0"; DeprecatedNames(13); }
  lemma NamesAliasKP1() ensures NamesKey("kp1", Numpad1) { assert DeprecatedConstants[14] == ("KP1", Numpad1); assert ToLower("KP1") == "kp1"; DeprecatedNames(14); }
  lemma NamesAliasKP2() ensures NamesKey("kp2", Numpad2) { assert DeprecatedConstants[15] == ("KP2", Numpad2); assert ToLower("KP2") == "kp2"; DeprecatedNames(15); }
  lemma NamesAliasKP3() ensures NamesKey("kp3", Numpad3) { assert DeprecatedConstants[16] == ("KP3", Numpad3); assert ToLower("KP3") == "kp3"; DeprecatedNames(16); }
  lemma NamesAliasKP4() ensures NamesKey("kp4", Numpad4) { assert DeprecatedConstants[17] == ("KP4", Numpad4); assert ToLower("KP4") == "kp4"; DeprecatedNames(17); }
  lemma NamesAliasKP5() ensures NamesKey("kp5", Numpad5) { assert DeprecatedConstants[18] == ("KP5", Numpad5); assert ToLower("KP5") == "kp5"; DeprecatedNames(18); }
  lemma NamesAliasKP6() ensures NamesKey("kp6", Numpad6) { assert DeprecatedConstants[19] == ("KP6", Numpad6); assert ToLower("KP6") == "kp6"; DeprecatedNames(19); }
  lemma NamesAliasKP7() ensures NamesKey("kp7", Numpad7) { assert DeprecatedConstants[20] == ("KP7", Numpad7); assert ToLower("KP7") == "kp7"; DeprecatedNames(20); }
  lemma NamesAliasKP8() ensures NamesKey("kp8", Numpad8) { assert DeprecatedConstants[21] == ("KP8", Numpad8); assert ToLower("KP8") == "kp8"; DeprecatedNames(21); }
  lemma NamesAliasKP9() ensures NamesKey("kp9", Numpad9) { assert DeprecatedConstants[22] == ("KP9", Numpad9); assert ToLower("KP9") == "kp9"; DeprecatedNames(22); }
  lemma NamesAliasKPAdd() ensures NamesKey("kpadd", NumpadAdd) { assert DeprecatedConstants[23] == ("KPAdd", NumpadAdd); assert ToLower("KPAdd") == "kpadd"; DeprecatedNames(23); }
  lemma NamesAliasKPDecimal() ensures NamesKey("kpdecimal", NumpadDecimal) { assert DeprecatedConstants[24] == ("KPDecimal", NumpadDecimal); assert ToLower("KPDecimal") == "kpdecimal"; DeprecatedNames(24); }
  lemma NamesAliasKPDivide() ensures NamesKey("kpdivide", NumpadDivide) { assert DeprecatedConstants[25] == ("KPDivide", NumpadDivide); assert ToLower("KPDivide") == "kpdivide"; DeprecatedNames(25); }
  lemma NamesAliasKPEnter() ensures NamesKey("kpenter", NumpadEnter) { assert DeprecatedConstants[26] == ("KPEnter", NumpadEnter); assert ToLower("KPEnter") == "kpenter"; DeprecatedNames(26); }
  lemma NamesAliasKPEqual() ensures NamesKey("kpequal", NumpadEqual) { assert DeprecatedConstants[27] == ("KPEqual", NumpadEqual); assert ToLower("KPEqual") == "kpequal"; DeprecatedNames(27); }
  lemma NamesAliasKPMultiply() ensures NamesKey("kpmultiply", NumpadMultiply) { assert DeprecatedConstants[28] == ("KPMultiply", NumpadMultiply); assert ToLower("KPMultiply") == "kpmultiply"; DeprecatedNames(28); }
  lemma NamesAliasKPSubtract() ensures NamesKey("kpsubtract", NumpadSubtract) { assert DeprecatedConstants[29] == ("KPSubtract", NumpadSubtract); assert ToLower("KPSubtract") == "kpsubtract"; DeprecatedNames(29); }
  lemma NamesAliasLeft() ensures NamesKey("left", ArrowLeft) { assert DeprecatedConstants[30] == ("Left", ArrowLeft); assert ToLower("Left") == "left"; DeprecatedNames(30); }
  lemma NamesAliasLeftBracket() ensures NamesKey("leftbracket", BracketLeft) { assert DeprecatedConstants[31] == ("LeftBracket", BracketLeft); assert ToLower("LeftBracket") == "leftbracket"; DeprecatedNames(31); }
  lemma NamesAliasMenu() ensures NamesKey("menu", ContextMenu) { assert DeprecatedConstants[32] == ("Menu", ContextMenu); assert ToLower("Menu") == "menu"; DeprecatedNames(32); }
  lemma NamesMeta() ensures NamesKey("meta", Meta) { assert String(Meta) == "Meta"; assert ToLower("Meta") == "meta"; }
  lemma NamesMetaLeft() ensures NamesKey("metaleft", MetaLeft) { assert String(MetaLeft) == "MetaLeft"; assert ToLower("MetaLeft") == "metaleft"; }
  lemma NamesMetaRight() ensures NamesKey("metaright", MetaRight) { assert String(MetaRight) == "MetaRight"; assert ToLower("MetaRight") == "metaright"; }
  lemma NamesMinus() ensures NamesKey("minus", Minus) { assert String(Minus) == "Minus"; assert ToLower("Minus") == "minus"; }
  lemma NamesNumLock() ensures NamesKey("numlock", NumLock) { assert String(NumLock) == "NumLock"; assert ToLower("NumLock") == "numlock"; }
  lemma NamesNumpad0() ensures NamesKey("numpad0", Numpad0) { assert String(Numpad0) == "Numpad0"; assert ToLower("Numpad0") == "numpad0"; }
  lemma NamesNumpad1() ensures NamesKey("numpad1", Numpad1) { assert String(Numpad1) == "Numpad1"; assert ToLower("Numpad1") == "numpad1"; }
  lemma NamesNumpad2() ensures NamesKey("numpad2", Numpad2) { assert String(Numpad2) == "Numpad2"; assert ToLower("Numpad2") == "numpad2"; }
  lemma NamesNumpad3() ensures NamesKey("numpad3", Numpad3) { assert String(Numpad3) == "Numpad3"; assert ToLower("Numpad3") == "numpad3"; }
  lemma NamesNumpad4() ensures NamesKey("numpad4", Numpad4) { assert String(Numpad4) == "Numpad4"; assert ToLower("Numpad4") == "numpad4"; }
  lemma NamesNumpad5() ensures NamesKey("numpad5", Numpad5) { assert String(Numpad5) == "Numpad5"; assert ToLower("Numpad5") == "numpad5"; }
  lemma NamesNumpad6() ensures NamesKey("numpad6", Numpad6) { assert String(Numpad6) == "Numpad6"; assert ToLower("Numpad6") == "numpad6"; }
  lemma NamesNumpad7() ensures NamesKey("numpad7", Numpad7) { assert String(Numpad7) == "Numpad7"; assert ToLower("Numpad7") == "numpad7"; }
  lemma NamesNumpad8() ensures NamesKey("numpad8", Numpad8) { assert String(Numpad8) == "Numpad8"; assert ToLower("Numpad8") == "numpad8"; }
  lemma NamesNumpad9() ensures NamesKey("numpad9", Numpad9) { assert String(Numpad9) == "Numpad9"; assert ToLower("Numpad9") == "numpad9"; }
  lemma NamesNumpadAdd() ensures NamesKey("numpadadd", NumpadAdd) { assert String(NumpadAdd) == "NumpadAdd"; assert ToLower("NumpadAdd") == "numpadadd"; }
  lemma NamesNumpadDecimal() ensures NamesKey("numpaddecimal", NumpadDecimal) { assert String(NumpadDecimal) == "NumpadDecimal"; assert ToLower("NumpadDecimal") == "numpaddecimal"; }
  lemma NamesNumpadDivide() ensures NamesKey("numpaddivide", NumpadDivide) { assert String(NumpadDivide) == "NumpadDivide"; assert ToLower("NumpadDivide") == "numpaddivide"; }
  lemma NamesNumpadEnter() ensures NamesKey("numpadenter", NumpadEnter) { assert String(NumpadEnter) == "NumpadEnter"; assert ToLower("NumpadEnter") == "numpadenter"; }
  lemma NamesNumpadEqual() ensures NamesKey("numpadequal", NumpadEqual) { assert String(NumpadEqual) == "NumpadEqual"; assert ToLower("NumpadEqual") == "numpadequal"; }
  lemma NamesNumpadMultiply() ensures NamesKey("numpadmultiply", NumpadMultiply) { assert String(NumpadMultiply) == "NumpadMultiply"; assert ToLower("NumpadMultiply") == "numpadmultiply"; }
  lemma NamesNumpadSubtract() ensures NamesKey("numpadsubtract", NumpadSubtract) { assert String(NumpadSubtract) == "NumpadSubtract"; assert ToLower("NumpadSubtract") == "numpadsubtract"; }
  lemma NamesPageDown() ensures NamesKey("pagedown", PageDown) { assert String(PageDown) == "PageDown"; assert ToLower("PageDown") == "pagedown"; }
  lemma NamesPageUp() ensures NamesKey("pageup", PageUp) { assert String(PageUp) == "PageUp"; assert ToLower("PageUp") == "pageup"; }
  lemma NamesPause() ensures NamesKey("pause", Pause) { assert String(Pause) == "Pause"; assert ToLower("Pause") == "pause"; }
  lemma NamesPeriod() ensures NamesKey("period", Period) { assert String(Period) == "Period"; assert ToLower("Period") == "period"; }
  lemma NamesPrintScreen() ensures NamesKey("printscreen", PrintScreen) { assert String(PrintScreen) == "PrintScreen"; assert ToLower("PrintScreen") == "printscreen"; }
  lemma NamesQuote() ensures NamesKey("quote", Quote) { assert String(Quote) == "Quote"; assert ToLower("Quote") == "quote"; }
  lemma NamesAliasRight() ensures NamesKey("right", ArrowRight) { assert DeprecatedConstants[33] == ("Right", ArrowRight); assert ToLower("Right") == "right"; DeprecatedNames(33); }
  lemma NamesAliasRightBracket() ensures NamesKey("rightbracket", BracketRight) { assert DeprecatedConstants[34] == ("RightBracket", BracketRight); assert ToLower("RightBracket") == "rightbracket"; DeprecatedNames(34); }
  lemma NamesScrollLock() ensures NamesKey("scrolllock", ScrollLock) { assert String(ScrollLock) == "ScrollLock"; assert ToLower("ScrollLock") == "scrolllock"; }
  lemma NamesSemicolon() ensures NamesKey("semicolon", Semicolon) { assert String(Semicolon) == "Semicolon"; assert ToLower("Semicolon") == "semicolon"; }
  lemma NamesShift() ensures NamesKey("shift", Shift) { assert String(Shift) == "Shift"; assert ToLower("Shift") == "shift"; }
  lemma NamesShiftLeft() ensures NamesKey("shiftleft", ShiftLeft) { assert String(ShiftLeft) == "ShiftLeft"; assert ToLower("ShiftLeft") == "shiftleft"; }
  lemma NamesShiftRight() ensures NamesKey("shiftright", ShiftRight) { assert String(ShiftRight) == "ShiftRight"; assert ToLower("ShiftRight") == "shiftright"; }
  lemma NamesSlash() ensures NamesKey("slash", Slash) { assert String(Slash) == "Slash"; assert ToLower("Slash") == "slash"; }
  lemma NamesSpace() ensures NamesKey("space", Space) { assert String(Space) == "Space"; assert ToLower("Space") == "space"; }
  lemma NamesTab() ensures NamesKey("tab", Tab) { assert String(Tab) == "Tab"; assert ToLower("Tab") == "tab"; }
  lemma NamesAliasUp() ensures NamesKey("up", ArrowUp) { assert DeprecatedConstants[35] == ("Up", ArrowUp); assert ToLower("Up") == "up"; DeprecatedNames(35); }

  // One fact per case of the table: the key it gives is named by its name.

  lemma SoundAlias0(lower: string, k: Key) requires Lookup(lower) == Some(k) && lower == "0" ensures NamesKey(lower, k) { assert k == Digit0; NamesAlias0(); }
  lemma SoundAlias1(lower: string, k: Key) requires Lookup(lower) == Some(k) && lower == "1" ensures NamesKey(lower, k) { assert k == Digit1; NamesAlias1(); }
  lemma SoundAlias2(lower: string, k: Key) requires Lookup(lower) == Some(k) && lower == "2" ensures NamesKey(lower, k) { assert k == Digit2; NamesAlias2(); }
  lemma SoundAlias3(lower: string, k: Key) requires Lookup(lower) == Some(k) && lower == "3" ensures NamesKey(lower, k) { assert k == Digit3; NamesAlias3(); }
  lemma SoundAlias4(lower: string, k: Key) requires Lookup(lower) == Some(k) && lower == "4" ensures NamesKey(lower, k) { assert k == Digit4; NamesAlias4(); }
  lemma SoundAlias5(lower: string, k: Key) requires Lookup(lower) == Some(k) && lower == "5" ensures NamesKey(lower, k) { assert k == Digit5; NamesAlias5(); }
  lemma SoundAlias6(lower: string, k: Key) requires Lookup(lower) == Some(k) && lower == "6" ensures NamesKey(lower, k) { assert k == Digit6; NamesAlias6(); }
  lemma SoundAlias7(lower: string, k: Key) requires Lookup(lower) == Some(k) && lower == "7" ensures NamesKey(lower, k) { assert k == Digit7; NamesAlias7(); }
  lemma SoundAlias8(lower: string, k: Key) requires Lookup(lower) == Some(k) && lower == "8" ensures NamesKey(lower, k) { assert k == Digit8; NamesAlias8(); }
  lemma SoundAlias9(lower: string, k: Key) requires Lookup(lower) == Some(k) && lower == "9" ensures NamesKey(lower, k) { assert k == Digit9; NamesAlias9(); }
  lemma SoundA(lower: string, k: Key) requires Lookup(lower) == Some(k) && lower == "a" ensures NamesKey(lower, k) { assert k == A; NamesA(); }
  lemma SoundB(lower: string, k: Key) requires Lookup(lower) == Some(k) && lower == "b" ensures NamesKey(lower, k) { assert k == B; NamesB(); }
  lemma SoundC(lower: string, k: Key) requires Lookup(lower) == Some(k) && lower == "c" ensures NamesKey(lower, k) { assert k == C; NamesC(); }
  lemma SoundD(lower: string, k: Key) requires Lookup(lower) == Some(k) && lower == "d" ensures NamesKey(lower, k) { assert k == D; NamesD(); }
  lemma SoundE(lower: string, k: Key) requires Lookup(lower) == Some(k) && lower == "e" ensures NamesKey(lower, k) { assert k == E; NamesE(); }
  lemma SoundF(lower: string, k: Key) requires Lookup(lower) == Some(k) && lower == "f" ensures NamesKey(lower, k) { assert k == F; NamesF(); }
  lemma SoundG(lower: string, k: Key) requires Lookup(lower) == Some(k) && lower == "g" ensures NamesKey(lower, k) { assert k == G; NamesG(); }
  lemma SoundH(lower: string, k: Key) requires Lookup(lower) == Some(k) && lower == "h" ensures NamesKey(lower, k) { assert k == H; NamesH(); }
  lemma SoundI(lower: string, k: Key) requires Lookup(lower) == Some(k) && lower == "i" ensures NamesKey(lower, k) { assert k == I; NamesI(); }
  lemma SoundJ(lower: string, k: Key) requires Lookup(lower) == Some(k) && lower == "j" ensures NamesKey(lower, k) { assert k == J; NamesJ(); }
  lemma SoundK(lower: string, k: Key) requires LookupPart1(lower) == Some(k) && lower == "k" ensures NamesKey(lower, k) { assert k == K; NamesK(); }
  lemma SoundL(lower: string, k: Key) requires LookupPart1(lower) == Some(k) && lower == "l" ensures NamesKey(lower, k) { assert k == L; NamesL(); }
  lemma SoundM(lower: string, k: Key) requires LookupPart1(lower) == Some(k) && lower == "m" ensures NamesKey(lower, k) { assert k == M; NamesM(); }
  lemma SoundN(lower: string, k: Key) requires LookupPart1(lower) == Some(k) && lower == "n" ensures NamesKey(lower, k) { assert k == N; NamesN(); }
  lemma SoundO(lower: string, k: Key) requires LookupPart1(lower) == Some(k) && lower == "o" ensures NamesKey(lower, k) { assert k == O; NamesO(); }
  lemma SoundP(lower: string, k: Key) requires LookupPart1(lower) == Some(k) && lower == "p" ensures NamesKey(lower, k) { assert k == P; NamesP(); }
  lemma SoundQ(lower: string, k: Key) requires LookupPart1(lower) == Some(k) && lower == "q" ensures NamesKey(lower, k) { assert k == Q; NamesQ(); }
  lemma SoundR(lower: string, k: Key) requires LookupPart1(lower) == Some(k) && lower == "r" ensures NamesKey(lower, k) { assert k == R; NamesR(); }
  lemma SoundS(lower: string, k: Key) requires LookupPart1(lower) == Some(k) && lower == "s" ensures NamesKey(lower, k) { assert k == S; NamesS(); }
  lemma SoundT(lower: string, k: Key) requires LookupPart1(lower) == Some(k) && lower == "t" ensures NamesKey(lower, k) { assert k == T; NamesT(); }
  lemma SoundU(lower: string, k: Key) requires LookupPart1(lower) == Some(k) && lower == "u" ensures NamesKey(lower, k) { assert k == U; NamesU(); }
  lemma SoundV(lower: string, k: Key) requires LookupPart1(lower) == Some(k) && lower == "v" ensures NamesKey(lower, k) { assert k == V; NamesV(); }
  lemma SoundW(lower: string, k: Key) requires LookupPart1(lower) == Some(k) && lower == "w" ensures NamesKey(lower, k) { assert k == W; NamesW(); }
  lemma SoundX(lower: string, k: Key) requires LookupPart1(lower) == Some(k) && lower == "x" ensures NamesKey(lower, k) { assert k == X; NamesX(); }
  lemma SoundY(lower: string, k: Key) requires LookupPart1(lower) == Some(k) && lower == "y" ensures NamesKey(lower, k) { assert k == Y; NamesY(); }
  lemma SoundZ(lower: string, k: Key) requires LookupPart1(lower) == Some(k) && lower == "z" ensures NamesKey(lower, k) { assert k == Z; NamesZ(); }
  lemma SoundAlt(lower: string, k: Key) requires LookupPart1(lower) == Some(k) && lower == "alt" ensures NamesKey(lower, k) { assert k == Alt; NamesAlt(); }
  lemma SoundAltLeft(lower: string, k: Key) requires LookupPart1(lower) == Some(k) && lower == "altleft" ensures NamesKey(lower, k) { assert k == AltLeft; NamesAltLeft(); }
  lemma SoundAltRight(lower: string, k: Key) requires LookupPart1(lower) == Some(k) && lower == "altright" ensures NamesKey(lower, k) { assert k == AltRight; NamesAltRight(); }
  lemma SoundAliasApostrophe(lower: string, k: Key) requires LookupPart1(lower) == Some(k) && lower == "apostrophe" ensures NamesKey(lower, k) { assert k == Quote; NamesAliasApostrophe(); }
  lemma SoundArrowDown(lower: string, k: Key) requires LookupPart2(lower) == Some(k) && lower == "arrowdown" ensures NamesKey(lower, k) { assert k == ArrowDown; NamesArrowDown(); }
  lemma SoundArrowLeft(lower: string, k: Key) requires LookupPart2(lower) == Some(k) && lower == "arrowleft" ensures NamesKey(lower, k) { assert k == ArrowLeft; NamesArrowLeft(); }
  lemma SoundArrowRight(lower: string, k: Key) requires LookupPart2(lower) == Some(k) && lower == "arrowright" ensures NamesKey(lower, k) { assert k == ArrowRight; NamesArrowRight(); }
  lemma SoundArrowUp(lower: string, k: Key) requires LookupPart2(lower) == Some(k) && lower == "arrowup" ensures NamesKey(lower, k) { assert k == ArrowUp; NamesArrowUp(); }
  lemma SoundBackquote(lower: string, k: Key) requires LookupPart2(lower) == Some(k) && lower == "backquote" ensures NamesKey(lower, k) { assert k == Backquote; NamesBackquote(); }
  lemma SoundBackslash(lower: string, k: Key) requires LookupPart2(lower) == Some(k) && lower == "backslash" ensures NamesKey(lower, k) { assert k == Backslash; NamesBackslash(); }
  lemma SoundBackspace(lower: string, k: Key) requires LookupPart2(lower) == Some(k) && lower == "backspace" ensures NamesKey(lower, k) { assert k == Backspace; NamesBackspace(); }
  lemma SoundBracketLeft(lower: string, k: Key) requires LookupPart2(lower) == Some(k) && lower == "bracketleft" ensures NamesKey(lower, k) { assert k == BracketLeft; NamesBracketLeft(); }
  lemma SoundBracketRight(lower: string, k: Key) requires LookupPart2(lower) == Some(k) && lower == "bracketright" ensures NamesKey(lower, k) { assert k == BracketRight; NamesBracketRight(); }
  lemma SoundCapsLock(lower: string, k: Key) requires LookupPart2(lower) == Some(k) && lower == "capslock" ensures NamesKey(lower, k) { assert k == CapsLock; NamesCapsLock(); }
  lemma SoundComma(lower: string, k: Key) requires LookupPart2(lower) == Some(k) && lower == "comma" ensures NamesKey(lower, k) { assert k == Comma; NamesComma(); }
  lemma SoundContextMenu(lower: string, k: Key) requires LookupPart2(lower) == Some(k) && lower == "contextmenu" ensures NamesKey(lower, k) { assert k == ContextMenu; NamesContextMenu(); }
  lemma SoundControl(lower: string, k: Key) requires LookupPart2(lower) == Some(k) && lower == "control" ensures NamesKey(lower, k) { assert k == Control; NamesControl(); }
  lemma SoundControlLeft(lower: string, k: Key) requires LookupPart2(lower) == Some(k) && lower == "controlleft" ensures NamesKey(lower, k) { assert k == ControlLeft; NamesControlLeft(); }
  lemma SoundControlRight(lower: string, k: Key) requires LookupPart2(lower) == Some(k) && lower == "controlright" ensures NamesKey(lower, k) { assert k == ControlRight; NamesControlRight(); }
  lemma SoundDelete(lower: string, k: Key) requires LookupPart2(lower) == Some(k) && lower == "delete" ensures NamesKey(lower, k) { assert k == Delete; NamesDelete(); }
  lemma SoundDigit0(lower: string, k: Key) requires LookupPart2(lower) == Some(k) && lower == "digit0" ensures NamesKey(lower, k) { assert k == Digit0; NamesDigit0(); }
  lemma SoundDigit1(lower: string, k: Key) requires LookupPart2(lower) == Some(k) && lower == "digit1" ensures NamesKey(lower, k) { assert k == Digit1; NamesDigit1(); }
  lemma SoundDigit2(lower: string, k: Key) requires LookupPart2(lower) == Some(k) && lower == "digit2" ensures NamesKey(lower, k) { assert k == Digit2; NamesDigit2(); }
  lemma SoundDigit3(lower: string, k: Key) requires LookupPart2(lower) == Some(k) && lower == "digit3" ensures NamesKey(lower, k) { assert k == Digit3; NamesDigit3(); }
  lemma SoundDigit4(lower: string, k: Key) requires LookupPart3(lower) == Some(k) && lower == "digit4" ensures NamesKey(lower, k) { assert k == Digit4; NamesDigit4(); }
  lemma SoundDigit5(lower: string, k: Key) requires LookupPart3(lower) == Some(k) && lower == "digit5" ensures NamesKey(lower, k) { assert k == Digit5; NamesDigit5(); }
  lemma SoundDigit6(lower: string, k: Key) requires LookupPart3(lower) == Some(k) && lower == "digit6" ensures NamesKey(lower, k) { assert k == Digit6; NamesDigit6(); }
  lemma SoundDigit7(lower: string, k: Key) requires LookupPart3(lower) == Some(k) && lower == "digit7" ensures NamesKey(lower, k) { assert k == Digit7; NamesDigit7(); }
  lemma SoundDigit8(lower: string, k: Key) requires LookupPart3(lower) == Some(k) && lower == "digit8" ensures NamesKey(lower, k) { assert k == Digit8; NamesDigit8(); }
  lemma SoundDigit9(lower: string, k: Key) requires LookupPart3(lower) == Some(k) && lower == "digit9" ensures NamesKey(lower, k) { assert k == Digit9; NamesDigit9(); }
  lemma SoundAliasDown(lower: string, k: Key) requires LookupPart3(lower) == Some(k) && lower == "down" ensures NamesKey(lower, k) { assert k == ArrowDown; NamesAliasDown(); }
  lemma SoundEnd(lower: string, k: Key) requires LookupPart3(lower) == Some(k) && lower == "end" ensures NamesKey(lower, k) { assert k == End; NamesEnd(); }
  lemma SoundEnter(lower: string, k: Key) requires LookupPart3(lower) == Some(k) && lower == "enter" ensures NamesKey(lower, k) { assert k == Enter; NamesEnter(); }
  lemma SoundEqual(lower: string, k: Key) requires LookupPart3(lower) == Some(k) && lower == "equal" ensures NamesKey(lower, k) { assert k == Equal; NamesEqual(); }
  lemma SoundEscape(lower: string, k: Key) requires LookupPart3(lower) == Some(k) && lower == "escape" ensures NamesKey(lower, k) { assert k == Escape; NamesEscape(); }
  lemma SoundF1(lower: string, k: Key) requires LookupPart3(lower) == Some(k) && lower == "f1" ensures NamesKey(lower, k) { assert k == F1; NamesF1(); }
  lemma SoundF2(lower: string, k: Key) requires LookupPart3(lower) == Some(k) && lower == "f2" ensures NamesKey(lower, k) { assert k == F2; NamesF2(); }
  lemma SoundF3(lower: string, k: Key) requires LookupPart3(lower) == Some(k) && lower == "f3" ensures NamesKey(lower, k) { assert k == F3; NamesF3(); }
  lemma SoundF4(lower: string, k: Key) requires LookupPart3(lower) == Some(k) && lower == "f4" ensures NamesKey(lower, k) { assert k == F4; NamesF4(); }
  lemma SoundF5(lower: string, k: Key) requires LookupPart3(lower) == Some(k) && lower == "f5" ensures NamesKey(lower, k) { assert k == F5; NamesF5(); }
  lemma SoundF6(lower: string, k: Key) requires LookupPart3(lower) == Some(k) && lower == "f6" ensures NamesKey(lower, k) { assert k == F6; NamesF6(); }
  lemma SoundF7(lower: string, k: Key) requires LookupPart3(lower) == Some(k) && lower == "f7" ensures NamesKey(lower, k) { assert k == F7; NamesF7(); }
  lemma SoundF8(lower: string, k: Key) requires LookupPart3(lower) == Some(k) && lower == "f8" ensures NamesKey(lower, k) { assert k == F8; NamesF8(); }
  lemma SoundF9(lower: string, k: Key) requires LookupPart3(lower) == Some(k) && lower == "f9" ensures NamesKey(lower, k) { assert k == F9; NamesF9(); }
  lemma SoundF10(lower: string, k: Key) requires LookupPart4(lower) == Some(k) && lower == "f10" ensures NamesKey(lower, k) { assert k == F10; NamesF10(); }
  lemma SoundF11(lower: string, k: Key) requires LookupPart4(lower) == Some(k) && lower == "f11" ensures NamesKey(lower, k) { assert k == F11; NamesF11(); }
  lemma SoundF12(lower: string, k: Key) requires LookupPart4(lower) == Some(k) && lower == "f12" ensures NamesKey(lower, k) { assert k == F12; NamesF12(); }
  lemma SoundF13(lower: string, k: Key) requires LookupPart4(lower) == Some(k) && lower == "f13" ensures NamesKey(lower, k) { assert k == F13; NamesF13(); }
  lemma SoundF14(lower: string, k: Key) requires LookupPart4(lower) == Some(k) && lower == "f14" ensures NamesKey(lower, k) { assert k == F14; NamesF14(); }
  lemma SoundF15(lower: string, k: Key) requires LookupPart4(lower) == Some(k) && lower == "f15" ensures NamesKey(lower, k) { assert k == F15; NamesF15(); }
  lemma SoundF16(lower: string, k: Key) requires LookupPart4(lower) == Some(k) && lower == "f16" ensures NamesKey(lower, k) { assert k == F16; NamesF16(); }
  lemma SoundF17(lower: string, k: Key) requires LookupPart4(lower) == Some(k) && lower == "f17" ensures NamesKey(lower, k) { assert k == F17; NamesF17(); }
  lemma SoundF18(lower: string, k: Key) requires LookupPart4(lower) == Some(k) && lower == "f18" ensures NamesKey(lower, k) { assert k == F18; NamesF18(); }
  lemma SoundF19(lower: string, k: Key) requires LookupPart4(lower) == Some(k) && lower == "f19" ensures NamesKey(lower, k) { assert k == F19; NamesF19(); }
  lemma SoundF20(lower: string, k: Key) requires LookupPart4(lower) == Some(k) && lower == "f20" ensures NamesKey(lower, k) { assert k == F20; NamesF20(); }
  lemma SoundF21(lower: string, k: Key) requires LookupPart4(lower) == Some(k) && lower == "f21" ensures NamesKey(lower, k) { assert k == F21; NamesF21(); }
  lemma SoundF22(lower: string, k: Key) requires LookupPart4(lower) == Some(k) && lower == "f22" ensures NamesKey(lower, k) { assert k == F22; NamesF22(); }
  lemma SoundF23(lower: string, k: Key) requires LookupPart4(lower) == Some(k) && lower == "f23" ensures NamesKey(lower, k) { assert k == F23; NamesF23(); }
  lemma SoundF24(lower: string, k: Key) requires LookupPart4(lower) == Some(k) && lower == "f24" ensures NamesKey(lower, k) { assert k == F24; NamesF24(); }
  lemma SoundAliasGraveAccent(lower: string, k: Key) requires LookupPart4(lower) == Some(k) && lower == "graveaccent" ensures NamesKey(lower, k) { assert k == Backquote; NamesAliasGraveAccent(); }
  lemma SoundHome(lower: string, k: Key) requires LookupPart4(lower) == Some(k) && lower == "home" ensures NamesKey(lower, k) { assert k == Home; NamesHome(); }
  lemma SoundInsert(lower: string, k: Key) requires LookupPart4(lower) == Some(k) && lower == "insert" ensures NamesKey(lower, k) { assert k == Insert; NamesInsert(); }
  lemma SoundIntlBackslash(lower: string, k: Key) requires LookupPart4(lower) == Some(k) && lower == "intlbackslash" ensures NamesKey(lower, k) { assert k == IntlBackslash; NamesIntlBackslash(); }
  lemma SoundAliasKP0(lower: string, k: Key) requires LookupPart4(lower) == Some(k) && lower == "kp0" ensures NamesKey(lower, k) { assert k == Numpad0; NamesAliasKP0(); }
  lemma SoundAliasKP1(lower: string, k: Key) requires LookupPart5(lower) == Some(k) && lower == "kp1" ensures NamesKey(lower, k) { assert k == Numpad1; NamesAliasKP1(); }
  lemma SoundAliasKP2(lower: string, k: Key) requires LookupPart5(lower) == Some(k) && lower == "kp2" ensures NamesKey(lower, k) { assert k == Numpad2; NamesAliasKP2(); }
  lemma SoundAliasKP3(lower: string, k: Key) requires LookupPart5(lower) == Some(k) && lower == "kp3" ensures NamesKey(lower, k) { assert k == Numpad3; NamesAliasKP3(); }
  lemma SoundAliasKP4(lower: string, k: Key) requires LookupPart5(lower) == Some(k) && lower == "kp4" ensures NamesKey(lower, k) { assert k == Numpad4; NamesAliasKP4(); }
  lemma SoundAliasKP5(lower: string, k: Key) requires LookupPart5(lower) == Some(k) && lower == "kp5" ensures NamesKey(lower, k) { assert k == Numpad5; NamesAliasKP5(); }
  lemma SoundAliasKP6(lower: string, k: Key) requires LookupPart5(lower) == Some(k) && lower == "kp6" ensures NamesKey(lower, k) { assert k == Numpad6; NamesAliasKP6(); }
  lemma SoundAliasKP7(lower: string, k: Key) requires LookupPart5(lower) == Some(k) && lower == "kp7" ensures NamesKey(lower, k) { assert k == Numpad7; NamesAliasKP7(); }
  lemma SoundAliasKP8(lower: string, k: Key) requires LookupPart5(lower) == Some(k) && lower == "kp8" ensures NamesKey(lower, k) { assert k == Numpad8; NamesAliasKP8(); }
  lemma SoundAliasKP9(lower: string, k: Key) requires LookupPart5(lower) == Some(k) && lower == "kp9" ensures NamesKey(lower, k) { assert k == Numpad9; NamesAliasKP9(); }
  lemma SoundAliasKPAdd(lower: string, k: Key) requires LookupPart5(lower) == Some(k) && lower == "kpadd" ensures NamesKey(lower, k) { assert k == NumpadAdd; NamesAliasKPAdd(); }
  lemma SoundAliasKPDecimal(lower: string, k: Key) requires LookupPart5(lower) == Some(k) && lower == "kpdecimal" ensures NamesKey(lower, k) { assert k == NumpadDecimal; NamesAliasKPDecimal(); }
  lemma SoundAliasKPDivide(lower: string, k: Key) requires LookupPart5(lower) == Some(k) && lower == "kpdivide" ensures NamesKey(lower, k) { assert k == NumpadDivide; NamesAliasKPDivide(); }
  lemma SoundAliasKPEnter(lower: string, k: Key) requires LookupPart5(lower) == Some(k) && lower == "kpenter" ensures NamesKey(lower, k) { assert k == NumpadEnter; NamesAliasKPEnter(); }
  lemma SoundAliasKPEqual(lower: string, k: Key) requires LookupPart5(lower) == Some(k) && lower == "kpequal" ensures NamesKey(lower, k) { assert k == NumpadEqual; NamesAliasKPEqual(); }
  lemma SoundAliasKPMultiply(lower: string, k: Key) requires LookupPart5(lower) == Some(k) && lower == "kpmultiply" ensures NamesKey(lower, k) { assert k == NumpadMultiply; NamesAliasKPMultiply(); }
  lemma SoundAliasKPSubtract(lower: string, k: Key) requires LookupPart5(lower) == Some(k) && lower == "kpsubtract" ensures NamesKey(lower, k) { assert k == NumpadSubtract; NamesAliasKPSubtract(); }
  lemma SoundAliasLeft(lower: string, k: Key) requires LookupPart5(lower) == Some(k) && lower == "left" ensures NamesKey(lower, k) { assert k == ArrowLeft; NamesAliasLeft(); }
  lemma SoundAliasLeftBracket(lower: string, k: Key) requires LookupPart5(lower) == Some(k) && lower == "leftbracket" ensures NamesKey(lower, k) { assert k == BracketLeft; NamesAliasLeftBracket(); }
  lemma SoundAliasMenu(lower: string, k: Key) requires LookupPart5(lower) == Some(k) && lower == "menu" ensures NamesKey(lower, k) { assert k == ContextMenu; NamesAliasMenu(); }
  lemma SoundMeta(lower: string, k: Key) requires LookupPart5(lower) == Some(k) && lower == "meta" ensures NamesKey(lower, k) { assert k == Meta; NamesMeta(); }
  lemma SoundMetaLeft(lower: string, k: Key) requires LookupPart6(lower) == Some(k) && lower == "metaleft" ensures NamesKey(lower, k) { assert k == MetaLeft; NamesMetaLeft(); }
  lemma SoundMetaRight(lower: string, k: Key) requires LookupPart6(lower) == Some(k) && lower == "metaright" ensures NamesKey(lower, k) { assert k == MetaRight; NamesMetaRight(); }
  lemma SoundMinus(lower: string, k: Key) requires LookupPart6(lower) == Some(k) && lower == "minus" ensures NamesKey(lower, k) { assert k == Minus; NamesMinus(); }
  lemma SoundNumLock(lower: string, k: Key) requires LookupPart6(lower) == Some(k) && lower == "numlock" ensures NamesKey(lower, k) { assert k == NumLock; NamesNumLock(); }
  lemma SoundNumpad0(lower: string, k: Key) requires LookupPart6(lower) == Some(k) && lower == "numpad0" ensures NamesKey(lower, k) { assert k == Numpad0; NamesNumpad0(); }
  lemma SoundNumpad1(lower: string, k: Key) requires LookupPart6(lower) == Some(k) && lower == "numpad1" ensures NamesKey(lower, k) { assert k == Numpad1; NamesNumpad1(); }
  lemma SoundNumpad2(lower: string, k: Key) requires LookupPart6(lower) == Some(k) && lower == "numpad2" ensures NamesKey(lower, k) { assert k == Numpad2; NamesNumpad2(); }
  lemma SoundNumpad3(lower: string, k: Key) requires LookupPart6(lower) == Some(k) && lower == "numpad3" ensures NamesKey(lower, k) { assert k == Numpad3; NamesNumpad3(); }
  lemma SoundNumpad4(lower: string, k: Key) requires LookupPart6(lower) == Some(k) && lower == "numpad4" ensures NamesKey(lower, k) { assert k == Numpad4; NamesNumpad4(); }
  lemma SoundNumpad5(lower: string, k: Key) requires LookupPart6(lower) == Some(k) && lower == "numpad5" ensures NamesKey(lower, k) { assert k == Numpad5; NamesNumpad5(); }
  lemma SoundNumpad6(lower: string, k: Key) requires LookupPart6(lower) == Some(k) && lower == "numpad6" ensures NamesKey(lower, k) { assert k == Numpad6; NamesNumpad6(); }
  lemma SoundNumpad7(lower: string, k: Key) requires LookupPart6(lower) == Some(k) && lower == "numpad7" ensures NamesKey(lower, k) { assert k == Numpad7; NamesNumpad7(); }
  lemma SoundNumpad8(lower: string, k: Key) requires LookupPart6(lower) == Some(k) && lower == "numpad8" ensures NamesKey(lower, k) { assert k == Numpad8; NamesNumpad8(); }
  lemma SoundNumpad9(lower: string, k: Key) requires LookupPart6(lower) == Some(k) && lower == "numpad9" ensures NamesKey(lower, k) { assert k == Numpad9; NamesNumpad9(); }
  lemma SoundNumpadAdd(lower: string, k: Key) requires LookupPart6(lower) == Some(k) && lower == "numpadadd" ensures NamesKey(lower, k) { assert k == NumpadAdd; NamesNumpadAdd(); }
  lemma SoundNumpadDecimal(lower: string, k: Key) requires LookupPart6(lower) == Some(k) && lower == "numpaddecimal" ensures NamesKey(lower, k) { assert k == NumpadDecimal; NamesNumpadDecimal(); }
  lemma SoundNumpadDivide(lower: string, k: Key) requires LookupPart6(lower) == Some(k) && lower == "numpaddivide" ensures NamesKey(lower, k) { assert k == NumpadDivide; NamesNumpadDivide(); }
  lemma SoundNumpadEnter(lower: string, k: Key) requires LookupPart6(lower) == Some(k) && lower == "numpadenter" ensures NamesKey(lower, k) { assert k == NumpadEnter; NamesNumpadEnter(); }
  lemma SoundNumpadEqual(lower: string, k: Key) requires LookupPart6(lower) == Some(k) && lower == "numpadequal" ensures NamesKey(lower, k) { assert k == NumpadEqual; NamesNumpadEqual(); }
  lemma SoundNumpadMultiply(lower: string, k: Key) requires LookupPart6(lower) == Some(k) && lower == "numpadmultiply" ensures NamesKey(lower, k) { assert k == NumpadMultiply; NamesNumpadMultiply(); }
  lemma SoundNumpadSubtract(lower: string, k: Key) requires LookupPart7(lower) == Some(k) && lower == "numpadsubtract" ensures NamesKey(lower, k) { assert k == NumpadSubtract; NamesNumpadSubtract(); }
  lemma SoundPageDown(lower: string, k: Key) requires LookupPart7(lower) == Some(k) && lower == "pagedown" ensures NamesKey(lower, k) { assert k == PageDown; NamesPageDown(); }
  lemma SoundPageUp(lower: string, k: Key) requires LookupPart7(lower) == Some(k) && lower == "pageup" ensures NamesKey(lower, k) { assert k == PageUp; NamesPageUp(); }
  lemma SoundPause(lower: string, k: Key) requires LookupPart7(lower) == Some(k) && lower == "pause" ensures NamesKey(lower, k) { assert k == Pause; NamesPause(); }
  lemma SoundPeriod(lower: string, k: Key) requires LookupPart7(lower) == Some(k) && lower == "period" ensures NamesKey(lower, k) { assert k == Period; NamesPeriod(); }
  lemma SoundPrintScreen(lower: string, k: Key) requires LookupPart7(lower) == Some(k) && lower == "printscreen" ensures NamesKey(lower, k) { assert k == PrintScreen; NamesPrintScreen(); }
  lemma SoundQuote(lower: string, k: Key) requires LookupPart7(lower) == Some(k) && lower == "quote" ensures NamesKey(lower, k) { assert k == Quote; NamesQuote(); }
  lemma SoundAliasRight(lower: string, k: Key) requires LookupPart7(lower) == Some(k) && lower == "right" ensures NamesKey(lower, k) { assert k == ArrowRight; NamesAliasRight(); }
  lemma SoundAliasRightBracket(lower: string, k: Key) requires LookupPart7(lower) == Some(k) && lower == "rightbracket" ensures NamesKey(lower, k) { assert k == BracketRight; NamesAliasRightBracket(); }
  lemma SoundScrollLock(lower: string, k: Key) requires LookupPart7(lower) == Some(k) && lower == "scrolllock" ensures NamesKey(lower, k) { assert k == ScrollLock; NamesScrollLock(); }
  lemma SoundSemicolon(lower: string, k: Key) requires LookupPart7(lower) == Some(k) && lower == "semicolon" ensures NamesKey(lower, k) { assert k == Semicolon; NamesSemicolon(); }
  lemma SoundShift(lower: string, k: Key) requires LookupPart7(lower) == Some(k) && lower == "shift" ensures NamesKey(lower, k) { assert k == Shift; NamesShift(); }
  lemma SoundShiftLeft(lower: string, k: Key) requires LookupPart7(lower) == Some(k) && lower == "shiftleft" ensures NamesKey(lower, k) { assert k == ShiftLeft; NamesShiftLeft(); }
  lemma SoundShiftRight(lower: string, k: Key) requires LookupPart7(lower) == Some(k) && lower == "shiftright" ensures NamesKey(lower, k) { assert k == ShiftRight; NamesShiftRight(); }
  lemma SoundSlash(lower: string, k: Key) requires LookupPart7(lower) == Some(k) && lower == "slash" ensures NamesKey(lower, k) { assert k == Slash; NamesSlash(); }
  lemma SoundSpace(lower: string, k: Key) requires LookupPart7(lower) == Some(k) && lower == "space" ensures NamesKey(lower, k) { assert k == Space; NamesSpace(); }
  lemma SoundTab(lower: string, k: Key) requires LookupPart7(lower) == Some(k) && lower == "tab" ensures NamesKey(lower, k) { assert k == Tab; NamesTab(); }
  lemma SoundAliasUp(lower: string, k: Key) requires LookupPart7(lower) == Some(k) && lower == "up" ensures NamesKey(lower, k) { assert k == ArrowUp; NamesAliasUp(); }
}
