/** The dialogue box's typewriter: one line at a time, revealed one character per
    step, with an optional short shake when the line appears. */
module DialogueBox {
  import opened Types

  /** Delay between two revealed characters, in milliseconds. */
  const StepMs: nat := 50
  /** How long a shaking line shakes, whatever its length, in milliseconds. */
  const ShakeMs: nat := 500

  datatype Indicator = Continue | End

  /** The box's state as a value: the line shown (none while no dialogue is open),
      the revealed text and its length, the shake flag, and a generation number
      bumped each time a line is shown, which the timers of a line carry so that
      those of an earlier line are recognised. */
  datatype BoxView = BoxView(line: Option<DialogueLine>, displayedText: string, charIndex: nat,
                             isShaking: bool, generation: nat)

  const EmptyBox := BoxView(None, [], 0, false, 0)

  /** The displayed text is the prefix of the line of length `charIndex`. */
  predicate Revealed(v: BoxView) {
    match v.line
    case None => v.displayedText == [] && v.charIndex == 0
    case Some(l) => v.charIndex <= |l.text| && v.displayedText == l.text[..v.charIndex]
  }

  /** The line is still being typed. */
  predicate IsTyping(v: BoxView) {
    v.line.Some? && v.charIndex < |v.line.value.text|
  }

  /** A reveal step is scheduled: the line is not complete and no force-show is in effect. */
  predicate StepDue(v: BoxView, forceShow: bool) {
    IsTyping(v) && !forceShow
  }

  /** The condition under which the box reports that typing is complete. */
  predicate FullyShown(v: BoxView) {
    v.line.Some? && v.charIndex >= |v.line.value.text| && v.displayedText == v.line.value.text
  }

  /** The continue/end indicator: absent while typing, the end label on the last line. */
  function IndicatorShown(v: BoxView, isEnd: bool): Option<Indicator>
    requires v.line.Some?
  {
    if IsTyping(v) then None else Some(if isEnd then End else Continue)
  }

  /** The box given a new (or no) line: the reveal restarts; a line with the shake
      effect starts shaking, any other line stops it, and no line leaves it as it was. */
  function Shown(v: BoxView, l: Option<DialogueLine>): BoxView {
    BoxView(l, [], 0, if l.None? then v.isShaking else l.value.effect == Some(Shake), v.generation + 1)
  }

  /** Force-show completes a line still being typed. */
  function Forced(v: BoxView, forceShow: bool): BoxView {
    if forceShow && IsTyping(v) then v.(displayedText := v.line.value.text, charIndex := |v.line.value.text|)
    else v
  }

  /** One reveal step from a timer set for line `g`: the next character is appended.
      A timer of an earlier line, or one overtaken by force-show, changes nothing. */
  function Stepped(v: BoxView, g: nat, forceShow: bool): BoxView {
    if g == v.generation && StepDue(v, forceShow) then
      v.(displayedText := v.displayedText + [v.line.value.text[v.charIndex]], charIndex := v.charIndex + 1)
    else v
  }

  /** The shake timer of line `g` stops the shake; that of an earlier line changes nothing. */
  function ShakeStopped(v: BoxView, g: nat): BoxView {
    if g == v.generation then v.(isShaking := false) else v
  }

  /** `n` reveal steps of the current line, without force-show. */
  function Typed(v: BoxView, n: nat): BoxView {
    if n == 0 then v else Stepped(Typed(v, n - 1), v.generation, false)
  }

  class Typewriter {
    var line: Option<DialogueLine>
    var displayedText: string
    var charIndex: nat
    var isShaking: bool
    var generation: nat

    function View(): BoxView
      reads this
    {
      BoxView(line, displayedText, charIndex, isShaking, generation)
    }

    constructor ()
      ensures View() == EmptyBox
    {
      line := None;
      displayedText := [];
      charIndex := 0;
      isShaking := false;
      generation := 0;
    }

    method Show(l: Option<DialogueLine>)
      modifies this
      ensures View() == Shown(old(View()), l)
    {
      generation := generation + 1;
      line := l;
      displayedText := [];
      charIndex := 0;
      if l.Some? {
        isShaking := l.value.effect == Some(Shake);
      }
    }

    /** Force-show, which reports whether it completed the line. */
    method ForceShow(forceShow: bool) returns (completed: bool)
      modifies this
      ensures completed == (forceShow && IsTyping(old(View())))
      ensures View() == Forced(old(View()), forceShow)
    {
      completed := forceShow && line.Some? && charIndex < |line.value.text|;
      if completed {
        displayedText := line.value.text;
        charIndex := |line.value.text|;
      }
    }

    method Step(g: nat, forceShow: bool)
      modifies this
      ensures View() == Stepped(old(View()), g, forceShow)
    {
      if g == generation && line.Some? && charIndex < |line.value.text| && !forceShow {
        displayedText := displayedText + [line.value.text[charIndex]];
        charIndex := charIndex + 1;
      }
    }

    method StopShake(g: nat)
      modifies this
      ensures View() == ShakeStopped(old(View()), g)
    {
      if g == generation {
        isShaking := false;
      }
    }
  }

  /** A new (or no) line restarts the reveal from nothing, and only a line with the
      shake effect shakes. */
  lemma ShownRestarts(v: BoxView, l: Option<DialogueLine>)
    ensures Revealed(Shown(v, l))
    ensures Shown(v, l).displayedText == [] && Shown(v, l).charIndex == 0
    ensures l.Some? ==> (Shown(v, l).isShaking <==> l.value.effect == Some(Shake))
    ensures Shown(v, l).generation != v.generation
    ensures IsTyping(Shown(v, l)) <==> l.Some? && |l.value.text| > 0
  {
  }

  /** A step keeps the displayed text the prefix of the line: it appends exactly the
      character at `charIndex`, and the index never passes the end of the line. */
  lemma StepKeepsPrefix(v: BoxView, g: nat, forceShow: bool)
    requires Revealed(v)
    ensures Revealed(Stepped(v, g, forceShow))
    ensures Stepped(v, g, forceShow).line == v.line
    ensures g == v.generation && StepDue(v, forceShow) ==>
              && Stepped(v, g, forceShow).charIndex == v.charIndex + 1
              && Stepped(v, g, forceShow).displayedText == v.displayedText + [v.line.value.text[v.charIndex]]
    ensures !(g == v.generation && StepDue(v, forceShow)) ==> Stepped(v, g, forceShow) == v
  {
    if g == v.generation && StepDue(v, forceShow) {
      var text := v.line.value.text;
      assert text[..v.charIndex + 1] == text[..v.charIndex] + [text[v.charIndex]];
    }
  }

  /** `n` steps reveal the line `n` characters further, up to its end. */
  lemma {:induction false} TypedReveals(v: BoxView, n: nat)
    requires Revealed(v) && v.line.Some? && v.charIndex + n <= |v.line.value.text|
    ensures Typed(v, n) == v.(displayedText := v.line.value.text[..v.charIndex + n], charIndex := v.charIndex + n)
  {
    if n > 0 {
      TypedReveals(v, n - 1);
      var text := v.line.value.text;
      assert text[..v.charIndex + n] == text[..v.charIndex + n - 1] + [text[v.charIndex + n - 1]];
    }
  }

  /** A line shown afresh is fully shown after exactly as many steps as it has
      characters, is still typing before that, and a further step changes nothing. */
  lemma TypingTakesOneStepPerCharacter(v: BoxView, l: DialogueLine, n: nat)
    requires n <= |l.text|
    ensures n < |l.text| ==> IsTyping(Typed(Shown(v, Some(l)), n))
    ensures FullyShown(Typed(Shown(v, Some(l)), |l.text|))
    ensures Stepped(Typed(Shown(v, Some(l)), |l.text|), Shown(v, Some(l)).generation, false)
              == Typed(Shown(v, Some(l)), |l.text|)
  {
    var w := Shown(v, Some(l));
    TypedReveals(w, n);
    TypedReveals(w, |l.text|);
  }

  /** Force-show on a line being typed shows all of it; otherwise it changes nothing. */
  lemma ForcedCompletes(v: BoxView, forceShow: bool)
    requires Revealed(v)
    ensures Revealed(Forced(v, forceShow))
    ensures forceShow && v.line.Some? ==> FullyShown(Forced(v, forceShow)) && !IsTyping(Forced(v, forceShow))
    ensures !(forceShow && IsTyping(v)) ==> Forced(v, forceShow) == v
  {
  }

  /** The box reports completion exactly when the line is no longer typing: the
      comparison of the displayed text with the line adds nothing to the index test. */
  lemma FullyShownIffNotTyping(v: BoxView)
    requires Revealed(v) && v.line.Some?
    ensures FullyShown(v) <==> !IsTyping(v)
    ensures FullyShown(v) <==> v.displayedText == v.line.value.text
  {
  }

  /** The indicator appears only once the whole line is on screen, and says "end"
      exactly on the last line. */
  lemma IndicatorOnlyWhenShown(v: BoxView, isEnd: bool)
    requires Revealed(v) && v.line.Some?
    ensures IndicatorShown(v, isEnd).Some? <==> v.displayedText == v.line.value.text
    ensures IndicatorShown(v, isEnd) == Some(End) <==> isEnd && v.displayedText == v.line.value.text
  {
  }
}
