/** The frame around one step of the onboarding flow, and its "next" button. */
module OnboardingLayout {
  import opened Wrappers

  /** A JavaScript value of type `T | null | undefined`. */
  datatype Nullable<T> = Undefined | Null | Value(v: T)

  /** A callback supplied by the caller; only its presence matters here. */
  datatype Handler = Handler(id: nat)

  datatype Props = Props(title: string, subtitle: string,
                         onNextButtonPressed: Option<Handler>, isLastStep: Nullable<bool>)

  datatype ButtonView = ButtonView(disabled: bool, onClick: Option<Handler>, text: string)

  /** What `render` shows: the titles and the button. */
  datatype View = View(mainTitle: string, subtitle: string, button: ButtonView)

  /** JavaScript truthiness of `isLastStep`. */
  predicate Truthy(b: Nullable<bool>) {
    b == Value(true)
  }

  /** `render`: the button is disabled without a callback and reads "finished" on the last step. */
  function Render(props: Props): (v: View)
    ensures v.button.disabled <==> props.onNextButtonPressed.None?
    ensures v.button.text == "finished" <==> props.isLastStep == Value(true)
    ensures v.button.text == "next" <==> props.isLastStep != Value(true)
    ensures v.button.onClick == props.onNextButtonPressed
    ensures v.mainTitle == props.title + " " && v.subtitle == props.subtitle
  {
    var disabled := props.onNextButtonPressed.None?;
    var buttonText := if Truthy(props.isLastStep) then "finished" else "next";
    View(props.title + " ", props.subtitle, ButtonView(disabled, props.onNextButtonPressed, buttonText))
  }

  /** False, null and undefined all give "next". */
  lemma FalsyLastStepIsNext(props: Props)
    requires props.isLastStep in {Value(false), Null, Undefined}
    ensures Render(props).button.text == "next"
  {
  }

  /** The label ignores the callback, and `disabled` ignores `isLastStep`. */
  lemma ButtonStateIndependence(p: Props, q: Props)
    ensures p.isLastStep == q.isLastStep ==> Render(p).button.text == Render(q).button.text
    ensures p.onNextButtonPressed.Some? == q.onNextButtonPressed.Some? ==>
              Render(p).button.disabled == Render(q).button.disabled
  {
  }
}
