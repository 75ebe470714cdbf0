/** The appearance of a vault: what is stored, and what reading it back gives. */
module AppearanceSchema {
  import opened Base

  datatype Control = Accent | WindowTint | Container | Text | Component

  datatype Choice = Preset(id: string) | Custom(color: string)

  datatype Appearance = Appearance(
    accent: Choice, window: Choice, container: Choice, text: Choice, component: Choice, windowHint: bool)

  /** What a JSON value says where a choice is expected; `Invalid` is anything not of the two shapes. */
  datatype Raw = Invalid | Proper(choice: Choice)

  /** What the vault holds; `Unreadable` is nothing, no JSON object, or another version. */
  datatype Stored =
    | Unreadable
    | Fields(accent: Raw, window: Raw, container: Raw, text: Raw, component: Raw, windowHint: Option<bool>)

  const ACCENT_PRESETS := ["sky", "teal", "blue", "violet", "pink", "red", "orange", "yellow", "green", "neutral"]
  const TINT_PRESETS := ["neutral", "warm", "cool", "green", "violet", "rose"]

  const DEFAULT_APPEARANCE :=
    Appearance(Preset("sky"), Preset("cool"), Preset("cool"), Preset("cool"), Preset("cool"), false)

  function PresetsFor(control: Control): seq<string> {
    if control.Accent? then ACCENT_PRESETS else TINT_PRESETS
  }

  predicate IsHexDigit(c: char) {
    '0' <= c <= '9' || 'a' <= c <= 'f' || 'A' <= c <= 'F'
  }

  predicate IsHexColor(s: string) {
    |s| == 7 && s[0] == '#' && forall i :: 1 <= i < 7 ==> IsHexDigit(s[i])
  }

  function ValidChoice(control: Control, raw: Raw): Option<Choice> {
    match raw
    case Proper(Preset(id)) => if id in PresetsFor(control) then Some(Preset(id)) else None
    case Proper(Custom(color)) => if IsHexColor(color) then Some(Custom(Lower(color))) else None
    case _ => None
  }

  /** A choice as it is stored: reading it gives it back. */
  predicate Canonical(control: Control, choice: Choice) {
    ValidChoice(control, Proper(choice)) == Some(choice)
  }

  predicate IsCanonical(a: Appearance) {
    Canonical(Accent, a.accent) && Canonical(WindowTint, a.window) && Canonical(Container, a.container)
    && Canonical(Text, a.text) && Canonical(Component, a.component)
  }

  function ChoiceOr(control: Control, raw: Raw, fallback: Choice): Choice {
    var valid := ValidChoice(control, raw);
    if valid.Some? then valid.value else fallback
  }

  function Parse(stored: Stored): Appearance {
    match stored
    case Unreadable => DEFAULT_APPEARANCE
    case Fields(accent, window, container, text, component, hint) =>
      Appearance(
        ChoiceOr(Accent, accent, DEFAULT_APPEARANCE.accent),
        ChoiceOr(WindowTint, window, DEFAULT_APPEARANCE.window),
        ChoiceOr(Container, container, DEFAULT_APPEARANCE.container),
        ChoiceOr(Text, text, DEFAULT_APPEARANCE.text),
        ChoiceOr(Component, component, DEFAULT_APPEARANCE.component),
        hint.Some? && hint.value)
  }

  function Serialize(a: Appearance): Stored {
    Fields(Proper(a.accent), Proper(a.window), Proper(a.container), Proper(a.text), Proper(a.component), Some(a.windowHint))
  }

  lemma LowerIsStable(s: string)
    requires IsHexColor(s)
    ensures IsHexColor(Lower(s)) && Lower(Lower(s)) == Lower(s)
  {
    var t := Lower(s);
    assert forall i :: 0 <= i < |s| ==> t[i] == LowerChar(s[i]);
    assert forall i :: 1 <= i < 7 ==> IsHexDigit(s[i]);
    assert forall i :: 0 <= i < |t| ==> LowerChar(t[i]) == t[i];
  }

  /** Whatever the check lets through is canonical: a second check changes nothing. */
  lemma ValidIsCanonical(control: Control, raw: Raw)
    ensures ValidChoice(control, raw).Some? ==> Canonical(control, ValidChoice(control, raw).value)
  {
    match raw
    case Proper(Custom(color)) =>
      if IsHexColor(color) {
        LowerIsStable(color);
      }
    case _ =>
  }

  lemma DefaultIsCanonical()
    ensures IsCanonical(DEFAULT_APPEARANCE)
  {
    assert ACCENT_PRESETS[0] == "sky" && TINT_PRESETS[2] == "cool";
  }

  /** Reading gives an appearance that storing and reading again leaves as it is. */
  lemma ParseIsCanonical(stored: Stored)
    ensures IsCanonical(Parse(stored))
  {
    DefaultIsCanonical();
    if stored.Fields? {
      ValidIsCanonical(Accent, stored.accent);
      ValidIsCanonical(WindowTint, stored.window);
      ValidIsCanonical(Container, stored.container);
      ValidIsCanonical(Text, stored.text);
      ValidIsCanonical(Component, stored.component);
    }
  }

  /** Reading undoes storing exactly for canonical appearances. */
  lemma ParseUndoesSerializeIff(a: Appearance)
    ensures Parse(Serialize(a)) == a <==> IsCanonical(a)
  {
    ParseIsCanonical(Serialize(a));
  }

  // ---- changes ------------------------------------------------------------------------------------

  /** What `setAsync` is given: any of the choices and the hint, each unchecked. */
  datatype RawPatch = RawPatch(
    accent: Option<Raw>, window: Option<Raw>, container: Option<Raw>, text: Option<Raw>, component: Option<Raw>,
    windowHint: Option<Option<bool>>)

  datatype Patch = Patch(
    accent: Option<Choice>, window: Option<Choice>, container: Option<Choice>, text: Option<Choice>,
    component: Option<Choice>, windowHint: Option<bool>)

  predicate ChoiceAllowed(control: Control, raw: Option<Raw>) {
    raw.Some? ==> ValidChoice(control, raw.value).Some?
  }

  function CheckedChoice(control: Control, raw: Option<Raw>): Option<Choice> {
    if raw.Some? then ValidChoice(control, raw.value) else None
  }

  /** The checked changes, or nothing when one of them is invalid. */
  function Checked(raw: RawPatch): Option<Patch> {
    if ChoiceAllowed(Accent, raw.accent) && ChoiceAllowed(WindowTint, raw.window) && ChoiceAllowed(Container, raw.container)
       && ChoiceAllowed(Text, raw.text) && ChoiceAllowed(Component, raw.component)
       && (raw.windowHint.Some? ==> raw.windowHint.value.Some?)
    then
      Some(Patch(
        CheckedChoice(Accent, raw.accent), CheckedChoice(WindowTint, raw.window), CheckedChoice(Container, raw.container),
        CheckedChoice(Text, raw.text), CheckedChoice(Component, raw.component),
        if raw.windowHint.Some? then raw.windowHint.value else None))
    else None
  }

  function Or<T>(change: Option<T>, value: T): T {
    if change.Some? then change.value else value
  }

  function Merge(a: Appearance, p: Patch): Appearance {
    Appearance(Or(p.accent, a.accent), Or(p.window, a.window), Or(p.container, a.container), Or(p.text, a.text),
               Or(p.component, a.component), Or(p.windowHint, a.windowHint))
  }

  predicate CanonicalPatch(p: Patch) {
    (p.accent.Some? ==> Canonical(Accent, p.accent.value))
    && (p.window.Some? ==> Canonical(WindowTint, p.window.value))
    && (p.container.Some? ==> Canonical(Container, p.container.value))
    && (p.text.Some? ==> Canonical(Text, p.text.value))
    && (p.component.Some? ==> Canonical(Component, p.component.value))
  }

  lemma CheckedIsCanonical(raw: RawPatch)
    ensures Checked(raw).Some? ==> CanonicalPatch(Checked(raw).value)
  {
    if Checked(raw).Some? {
      if raw.accent.Some? { ValidIsCanonical(Accent, raw.accent.value); }
      if raw.window.Some? { ValidIsCanonical(WindowTint, raw.window.value); }
      if raw.container.Some? { ValidIsCanonical(Container, raw.container.value); }
      if raw.text.Some? { ValidIsCanonical(Text, raw.text.value); }
      if raw.component.Some? { ValidIsCanonical(Component, raw.component.value); }
    }
  }

  lemma MergeIsCanonical(a: Appearance, p: Patch)
    requires IsCanonical(a) && CanonicalPatch(p)
    ensures IsCanonical(Merge(a, p))
  {
  }

  /** Two appearances agree in every control, and in the hint, that the changes leave out. */
  predicate AgreeOutside(a: Appearance, b: Appearance, p: Patch) {
    (p.accent.None? ==> a.accent == b.accent)
    && (p.window.None? ==> a.window == b.window)
    && (p.container.None? ==> a.container == b.container)
    && (p.text.None? ==> a.text == b.text)
    && (p.component.None? ==> a.component == b.component)
    && (p.windowHint.None? ==> a.windowHint == b.windowHint)
  }

  /** The same changes give the same result exactly on appearances that agree in what is left out. */
  lemma MergeAgreesIff(a: Appearance, b: Appearance, p: Patch)
    ensures Merge(a, p) == Merge(b, p) <==> AgreeOutside(a, b, p)
  {
  }
}
