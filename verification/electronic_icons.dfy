/** The icon shown for a component type: a case-insensitive, first-match keyword search. */
module ElectronicIcons {
  import opened Text

  datatype Icon = TransistorIcon | MosfetIcon | IgbtIcon | ScrIcon | IcIcon | DiodeIcon | CapacitorIcon | ResistorIcon
    | CircuitBoardIcon

  /** The keyword tests in their order, on the lowercased type. */
  predicate SaysTransistor(lower: string) { Contains(lower, "transistor") || Contains(lower, "bjt") }
  predicate SaysIc(lower: string) { Contains(lower, "ic") || Contains(lower, "integrated") }

  /** `getComponentIcon`, with the icon component as an enumeration. */
  function ComponentIcon(kind: string): Icon {
    IconOfLower(ToLower(kind))
  }

  /** The chain of tests on the lowercased type. */
  function IconOfLower(lower: string): Icon {
    if SaysTransistor(lower) then TransistorIcon
    else if Contains(lower, "mosfet") then MosfetIcon
    else if Contains(lower, "igbt") then IgbtIcon
    else if Contains(lower, "scr") then ScrIcon
    else if SaysIc(lower) then IcIcon
    else if Contains(lower, "diode") then DiodeIcon
    else if Contains(lower, "capacitor") then CapacitorIcon
    else if Contains(lower, "resistor") then ResistorIcon
    else CircuitBoardIcon
  }

  /** Lower-casing is idempotent. */
  lemma {:induction false} LowerTwice(s: string)
    ensures ToLower(ToLower(s)) == ToLower(s)
  {
    if s != [] {
      LowerTwice(s[1..]);
      assert ToLower(s)[1..] == ToLower(s[1..]);
    }
  }

  /** The icon does not depend on case. */
  lemma IconIgnoresCase(kind: string)
    ensures ComponentIcon(ToUpper(kind)) == ComponentIcon(kind)
    ensures ComponentIcon(ToLower(kind)) == ComponentIcon(kind)
  {
    LowerAfterUpper(kind);
    LowerTwice(kind);
  }

  /**
   * Each icon is given exactly when its keywords occur and no earlier
   * keyword does; the circuit board is the fallback.
   */
  lemma IconOrder(kind: string)
    ensures var lower := ToLower(kind);
      && (ComponentIcon(kind) == TransistorIcon <==> SaysTransistor(lower))
      && (ComponentIcon(kind) == MosfetIcon <==> !SaysTransistor(lower) && Contains(lower, "mosfet"))
      && (ComponentIcon(kind) == IgbtIcon <==>
            !SaysTransistor(lower) && !Contains(lower, "mosfet") && Contains(lower, "igbt"))
      && (ComponentIcon(kind) == ScrIcon <==>
            !SaysTransistor(lower) && !Contains(lower, "mosfet") && !Contains(lower, "igbt") && Contains(lower, "scr"))
      && (ComponentIcon(kind) == IcIcon <==>
            !SaysTransistor(lower) && !Contains(lower, "mosfet") && !Contains(lower, "igbt") && !Contains(lower, "scr")
            && SaysIc(lower))
      && (ComponentIcon(kind) == DiodeIcon <==>
            !SaysTransistor(lower) && !Contains(lower, "mosfet") && !Contains(lower, "igbt") && !Contains(lower, "scr")
            && !SaysIc(lower) && Contains(lower, "diode"))
      && (ComponentIcon(kind) == CapacitorIcon <==>
            !SaysTransistor(lower) && !Contains(lower, "mosfet") && !Contains(lower, "igbt") && !Contains(lower, "scr")
            && !SaysIc(lower) && !Contains(lower, "diode") && Contains(lower, "capacitor"))
      && (ComponentIcon(kind) == ResistorIcon <==>
            !SaysTransistor(lower) && !Contains(lower, "mosfet") && !Contains(lower, "igbt") && !Contains(lower, "scr")
            && !SaysIc(lower) && !Contains(lower, "diode") && !Contains(lower, "capacitor") && Contains(lower, "resistor"))
      && (ComponentIcon(kind) == CircuitBoardIcon <==>
            !SaysTransistor(lower) && !Contains(lower, "mosfet") && !Contains(lower, "igbt") && !Contains(lower, "scr")
            && !SaysIc(lower) && !Contains(lower, "diode") && !Contains(lower, "capacitor") && !Contains(lower, "resistor"))
  {
  }

  /** `s` occurs in `a + s + b`. */
  lemma ContainsInMiddle(a: string, s: string, b: string)
    ensures Contains(a + s + b, s)
  {
    assert OccursAt(a + s + b, s, |a|) by {
      assert (a + s + b)[|a|..|a| + |s|] == s;
    }
  }

  /** A type naming a transistor gets the transistor icon, whatever else it names, "MOSFET" and "IGBT" included. */
  lemma TransistorWins(a: string, b: string)
    ensures ComponentIcon(a + "transistor" + b) == TransistorIcon
  {
    LowerOfConcat(a, "transistor", b);
    TransistorIsLowercase();
    ContainsInMiddle(ToLower(a), "transistor", ToLower(b));
  }

  /** A text without capital letters is its own lower-case form. */
  predicate NoCapitals(s: string) {
    s == [] || (!('A' <= s[0] <= 'Z') && NoCapitals(s[1..]))
  }

  lemma {:induction false} LowerOfLowercase(s: string)
    requires NoCapitals(s)
    ensures ToLower(s) == s
  {
    if s != [] {
      LowerOfLowercase(s[1..]);
    }
  }

  /** Lower-casing works piece by piece. */
  lemma {:induction false} LowerOfConcat(a: string, s: string, b: string)
    ensures ToLower(a + s + b) == ToLower(a) + ToLower(s) + ToLower(b)
  {
    LowerAppend(a, s);
    LowerAppend(a + s, b);
  }

  lemma {:induction false} LowerAppend(a: string, b: string)
    ensures ToLower(a + b) == ToLower(a) + ToLower(b)
  {
    if a != [] {
      LowerAppend(a[1..], b);
      assert (a + b)[1..] == a[1..] + b;
    } else {
      assert a + b == b;
    }
  }

  /**
   * "silicon diode", in any case, contains "ic" and so gets the IC icon,
   * although it names a diode.
   */
  lemma SiliconDiodeGetsIcIcon()
    ensures Contains(ToLower("silicon diode"), "diode")
    ensures ComponentIcon("silicon diode") == IcIcon
    ensures ComponentIcon(ToUpper("silicon diode")) == IcIcon
  {
    SiliconDiodeIsLowercase();
    SiliconDiodeWords();
    IconIgnoresCase("silicon diode");
  }

  lemma SiliconDiodeIsLowercase()
    ensures ToLower("silicon diode") == "silicon diode"
  {
    assert "silicon" + " " + "diode" == "silicon diode";
    LowerOfConcat("silicon", " ", "diode");
    LowerOfLowercase("silicon");
    LowerOfLowercase(" ");
    LowerOfLowercase("diode");
  }

  lemma TransistorIsLowercase()
    ensures ToLower("transistor") == "transistor"
  {
    LowerOfLowercase("transistor");
  }

  /** The keywords "silicon diode" contains, and those it does not. */
  lemma SiliconDiodeWords()
    ensures var lower := "silicon diode";
      && Contains(lower, "ic") && Contains(lower, "diode")
      && !Contains(lower, "transistor") && !Contains(lower, "bjt") && !Contains(lower, "mosfet")
      && !Contains(lower, "igbt") && !Contains(lower, "scr")
  {
    var lower := "silicon diode";
    assert OccursAt(lower, "ic", 3);
    assert OccursAt(lower, "diode", 8);
    NotContainsLetter(lower, "transistor", 't', 0);
    NotContainsLetter(lower, "bjt", 'b', 0);
    NotContainsLetter(lower, "mosfet", 'm', 0);
    NotContainsLetter(lower, "igbt", 'g', 1);
    NotContainsLetter(lower, "scr", 'r', 2);
  }

  /** A text lacking one of the letters of `sub` does not contain `sub`. */
  lemma NotContainsLetter(s: string, sub: string, c: char, k: nat)
    requires k < |sub| && sub[k] == c && c !in s
    ensures !Contains(s, sub)
  {
    forall i | 0 <= i <= |s| - |sub|
      ensures !OccursAt(s, sub, i)
    {
      assert s[i + k] in s;
    }
  }
}
