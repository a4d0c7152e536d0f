/** The six-step partograph form of `components/PartographForm.tsx`: the `activeStep`
    field that the step buttons and the previous/next buttons change, the flags drawn
    from it, and the two reference lines drawn on the active-phase chart. The form
    draws these lines only; it classifies no observation against them. */
module PartographStepper {

  datatype StepInfo = StepInfo(id: int, title: string)

  function Steps(): (steps: seq<StepInfo>)
    ensures |steps| == 6
    ensures forall i :: 0 <= i < 6 ==> steps[i].id == i + 1
  {
    [ StepInfo(1, "Admission"), StepInfo(2, "Examen Clinique"), StepInfo(3, "Latence"),
      StepInfo(4, "Phase Active"), StepInfo(5, "Accouchement"), StepInfo(6, "Post-partum") ]
  }

  predicate IsActive(activeStep: int, step: StepInfo) {
    activeStep == step.id
  }

  predicate IsCompleted(activeStep: int, step: StepInfo) {
    activeStep > step.id
  }

  /** The connector drawn after step `i` (0-based), highlighted once the form is past
      that step. */
  predicate ConnectorHighlighted(activeStep: int, i: int) {
    0 <= i < |Steps()| - 1 && activeStep > i + 1
  }

  /** Each connector is highlighted exactly when the step on its left is completed. */
  lemma ConnectorFollowsLeftStep(activeStep: int, i: int)
    requires 0 <= i < |Steps()| - 1
    ensures ConnectorHighlighted(activeStep, i) <==> IsCompleted(activeStep, Steps()[i])
  {
  }

  /** Within the six steps exactly one step is active and exactly the steps before it
      are completed; past the sixth, every step is completed and none is active. */
  lemma StepFlags(activeStep: int)
    requires activeStep >= 1
    ensures 1 <= activeStep <= 6 ==> IsActive(activeStep, Steps()[activeStep - 1])
    ensures forall i, j :: 0 <= i < j < 6 ==> !(IsActive(activeStep, Steps()[i]) && IsActive(activeStep, Steps()[j]))
    ensures forall i :: 0 <= i < 6 ==> (IsCompleted(activeStep, Steps()[i]) <==> i + 1 < activeStep)
    ensures forall i :: 0 <= i < 6 ==> !(IsActive(activeStep, Steps()[i]) && IsCompleted(activeStep, Steps()[i]))
    ensures activeStep > 6 ==> forall i :: 0 <= i < 6 ==> IsCompleted(activeStep, Steps()[i]) && !IsActive(activeStep, Steps()[i])
  {
  }

  /** Only the admission, clinical-exam and active-phase steps have content. */
  function RendersContent(activeStep: int): (shown: bool)
    ensures shown <==>
      (1 <= activeStep <= |Steps()| && Steps()[activeStep - 1].title in ["Admission", "Examen Clinique", "Phase Active"])
  {
    activeStep == 1 || activeStep == 2 || activeStep == 4
  }

  function NextLabel(activeStep: int): (caption: string)
    ensures activeStep == 6 <==> caption == "Terminer & Fermer Dossier"
  {
    if activeStep == 6 then "Terminer & Fermer Dossier" else "Étape Suivante"
  }

  class Stepper {
    var activeStep: int

    predicate Valid()
      reads this
    {
      activeStep >= 1
    }

    /** `useState(1)`. */
    constructor ()
      ensures activeStep == 1 && Valid()
    {
      activeStep := 1;
    }

    /** The previous button: disabled at step 1, otherwise one step back. */
    method Previous()
      requires Valid()
      modifies this
      ensures Valid()
      ensures old(activeStep) == 1 ==> activeStep == 1
      ensures old(activeStep) > 1 ==> activeStep == old(activeStep) - 1
    {
      if activeStep != 1 {
        activeStep := activeStep - 1;
      }
    }

    /** The next button: one step on, with no upper bound; from the sixth step it
        leads to a seventh that has neither an active step nor content. */
    method Next()
      requires Valid()
      modifies this
      ensures Valid()
      ensures activeStep == old(activeStep) + 1
      ensures old(activeStep) == 6 ==>
        !RendersContent(activeStep) && forall i :: 0 <= i < 6 ==> !IsActive(activeStep, Steps()[i])
    {
      activeStep := activeStep + 1;
    }

    /** A step button: that step becomes the active one. */
    method Jump(step: StepInfo)
      requires step in Steps()
      modifies this
      ensures Valid()
      ensures activeStep == step.id && 1 <= activeStep <= 6
      ensures IsActive(activeStep, step)
    {
      activeStep := step.id;
    }
  }

  // ---------------------------------------------------------------------------
  // reference lines of the active-phase chart

  datatype Point = Point(hour: int, cm: int)

  datatype Segment = Segment(start: Point, end: Point)

  const AlertLine := Segment(Point(0, 4), Point(6, 10))

  const ActionLine := Segment(Point(4, 4), Point(10, 10))

  function Shifted(s: Segment, hours: int): (t: Segment)
    ensures t.start.cm == s.start.cm && t.end.cm == s.end.cm
    ensures t.start.hour == s.start.hour + hours
    ensures t.end.hour - t.start.hour == s.end.hour - s.start.hour
  {
    Segment(Point(s.start.hour + hours, s.start.cm), Point(s.end.hour + hours, s.end.cm))
  }

  /** The action line is the alert line four hours later; both rise one centimetre an
      hour from 4 cm to full dilatation at 10 cm. */
  lemma ActionLineIsAlertLineFourHoursLater()
    ensures ActionLine == Shifted(AlertLine, 4)
    ensures AlertLine.end.cm - AlertLine.start.cm == AlertLine.end.hour - AlertLine.start.hour
    ensures AlertLine.start.cm == 4 && AlertLine.end.cm == 10
  {
  }
}
