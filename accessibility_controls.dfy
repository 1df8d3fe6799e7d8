/** The accessibility panel (`AccessibilityControls.jsx`): the text-size stepper over the
    four sizes, the haptic tap on each change, and the panel's labels. */
module AccessibilityControls {
  import opened Wrappers
  import AccessibilityContext

  const FontSizes: seq<string> := ["small", "normal", "large", "xlarge"]

  /** `fontSizes.indexOf(fontSize)`: the position of the size, or -1 for any other string. */
  function SizeIndex(fontSize: string): (i: int)
    ensures -1 <= i < |FontSizes|
    ensures i >= 0 ==> FontSizes[i] == fontSize
    ensures i == -1 <==> fontSize !in FontSizes
  {
    if fontSize == "small" then 0
    else if fontSize == "normal" then 1
    else if fontSize == "large" then 2
    else if fontSize == "xlarge" then 3
    else -1
  }

  /** The size `decreaseFont` sets, or None when it does nothing (at 'small' or unknown). */
  function Decreased(fontSize: string): (r: Option<string>)
    ensures r.Some? <==> SizeIndex(fontSize) > 0
    ensures r.Some? ==> r.value == FontSizes[SizeIndex(fontSize) - 1]
  {
    var i := SizeIndex(fontSize);
    if i > 0 then Some(FontSizes[i - 1]) else None
  }

  /** The size `increaseFont` sets, or None at 'xlarge'; an unknown size (index -1) moves
      to 'small'. */
  function Increased(fontSize: string): (r: Option<string>)
    ensures r.Some? <==> SizeIndex(fontSize) < |FontSizes| - 1
    ensures r.Some? ==> r.value == FontSizes[SizeIndex(fontSize) + 1]
    ensures fontSize !in FontSizes ==> r == Some("small")
  {
    var i := SizeIndex(fontSize);
    if i < |FontSizes| - 1 then Some(FontSizes[i + 1]) else None
  }

  /** A press of one of the stepper's buttons. */
  datatype Step = Decrease | Increase

  /** The size after one press. */
  function AfterStep(fontSize: string, step: Step): string {
    var next := if step == Decrease then Decreased(fontSize) else Increased(fontSize);
    if next.Some? then next.value else fontSize
  }

  /** The size after a series of presses. */
  function AfterSteps(fontSize: string, steps: seq<Step>): string
    decreases |steps|
  {
    if |steps| == 0 then fontSize else AfterSteps(AfterStep(fontSize, steps[0]), steps[1..])
  }

  /** From one of the four sizes every series of presses stays among them; from any other
      string, the first press of Increase moves to 'small' and presses of Decrease do nothing. */
  lemma {:induction false} StepsStayInRange(fontSize: string, steps: seq<Step>)
    ensures fontSize in FontSizes || Increase in steps ==> AfterSteps(fontSize, steps) in FontSizes
    ensures fontSize !in FontSizes && Increase !in steps ==> AfterSteps(fontSize, steps) == fontSize
    decreases |steps|
  {
    if |steps| > 0 {
      StepsStayInRange(AfterStep(fontSize, steps[0]), steps[1..]);
      assert steps == [steps[0]] + steps[1..];
    }
  }

  /** Going up a size and back down is the identity, below 'xlarge'. */
  lemma IncreaseThenDecrease(fontSize: string)
    requires 0 <= SizeIndex(fontSize) < |FontSizes| - 1
    ensures Decreased(Increased(fontSize).value) == Some(fontSize)
  {
  }

  /** The panel's labels. */
  datatype Labels = Labels(accessibility: string, highContrast: string, fontSize: string,
                           reducedMotion: string, close: string)

  const Es := Labels("Accesibilidad", "Alto Contraste", "Tamaño de Texto", "Menos Animaciones", "Cerrar")
  const En := Labels("Accessibility", "High Contrast", "Text Size", "Reduce Motion", "Close")

  /** `t[language] || t.es`: English for 'en', Spanish for everything else. */
  function Texts(language: string): (r: Labels)
    ensures r == En <==> language == "en"
    ensures r == Es <==> language != "en"
  {
    if language == "en" then En else Es
  }

  class Controls {
    var isOpen: bool
    /** Haptic taps given so far. */
    var taps: nat
    /** The settings provider the controls read and drive. */
    const settings: AccessibilityContext.AccessibilityProvider

    constructor (settings: AccessibilityContext.AccessibilityProvider)
      ensures !isOpen && taps == 0 && this.settings == settings
    {
      isOpen := false;
      taps := 0;
      this.settings := settings;
    }

    /** `decreaseFont`: one size smaller with a haptic tap, or nothing at all. */
    method DecreaseFont()
      modifies this, settings
      ensures settings.fontSize == AfterStep(old(settings.fontSize), Decrease)
      ensures taps == old(taps) + (if settings.fontSize != old(settings.fontSize) then 1 else 0)
      ensures isOpen == old(isOpen)
      ensures settings.highContrast == old(settings.highContrast) && settings.reducedMotion == old(settings.reducedMotion)
    {
      var next := Decreased(settings.fontSize);
      if next.Some? {
        taps := taps + 1;
        settings.SetFontSize(next.value);
      }
    }

    /** `increaseFont`: one size larger with a haptic tap, or nothing at all. */
    method IncreaseFont()
      modifies this, settings
      ensures settings.fontSize == AfterStep(old(settings.fontSize), Increase)
      ensures taps == old(taps) + (if settings.fontSize != old(settings.fontSize) then 1 else 0)
      ensures isOpen == old(isOpen)
      ensures settings.highContrast == old(settings.highContrast) && settings.reducedMotion == old(settings.reducedMotion)
    {
      var next := Increased(settings.fontSize);
      if next.Some? {
        taps := taps + 1;
        settings.SetFontSize(next.value);
      }
    }
  }
}
