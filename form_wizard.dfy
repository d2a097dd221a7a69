/**
 * The multi-step RFP submission form (src/components/MultiStepFormWizard.tsx): a zod
 * schema of five fields, three steps that own disjoint groups of those fields, a step
 * counter moved by Next (gated on the current step's fields) and Previous (unguarded),
 * and a final submit that re-checks the whole schema.
 */
module FormWizard {
  import opened Common

  datatype Field = RfpTitle | ClientName | DueDate | SubmissionRequirements | TeamNotes

  /** The form's values; every registered input yields a string, empty until typed in. */
  datatype FormValues = FormValues(
    rfpTitle: string,
    clientName: string,
    dueDate: string,
    submissionRequirements: string,
    teamNotes: string)

  const EmptyForm: FormValues := FormValues("", "", "", "", "")

  function Get(v: FormValues, f: Field): string {
    match f
    case RfpTitle => v.rfpTitle
    case ClientName => v.clientName
    case DueDate => v.dueDate
    case SubmissionRequirements => v.submissionRequirements
    case TeamNotes => v.teamNotes
  }

  /** The values after the input bound to `f` now holds `s`; no other field changes. */
  function Set(v: FormValues, f: Field, s: string): (w: FormValues)
    ensures Get(w, f) == s
    ensures forall g :: g != f ==> Get(w, g) == Get(v, g)
  {
    match f
    case RfpTitle => v.(rfpTitle := s)
    case ClientName => v.(clientName := s)
    case DueDate => v.(dueDate := s)
    case SubmissionRequirements => v.(submissionRequirements := s)
    case TeamNotes => v.(teamNotes := s)
  }

  // ---------------------------------------------------------------- the schema

  /** One position of an anchored pattern: `\d` or a literal character. */
  datatype Atom = Digit | Literal(c: char)

  /** The due-date pattern `^\d{4}-\d{2}-\d{2}$`, one atom per character. */
  const DatePattern: seq<Atom> :=
    [Digit, Digit, Digit, Digit, Literal('-'), Digit, Digit, Literal('-'), Digit, Digit]

  predicate AtomMatches(a: Atom, c: char) {
    match a
    case Digit => IsDigit(c)
    case Literal(l) => c == l
  }

  /** `s` matches the pattern from its first character to its last: one character per atom. */
  predicate FullMatch(s: string, p: seq<Atom>)
    ensures FullMatch(s, p) ==> |s| == |p|
    decreases p
  {
    if p == [] then s == []
    else s != [] && AtomMatches(p[0], s[0]) && FullMatch(s[1..], p[1..])
  }

  /**
   * The zod field rules: minimum lengths, the date pattern, and an optional note, which
   * accepts anything, the empty string included.
   */
  predicate FieldValid(f: Field, s: string)
    ensures f == TeamNotes ==> FieldValid(f, s)
    ensures f == DueDate && FieldValid(f, s) ==> |s| == |DatePattern|
  {
    match f
    case RfpTitle => |s| >= 5
    case ClientName => |s| >= 2
    case DueDate => FullMatch(s, DatePattern)
    case SubmissionRequirements => |s| >= 10
    case TeamNotes => true
  }

  /** The schema's keys, in declaration order. */
  const AllFields: seq<Field> := [RfpTitle, ClientName, DueDate, SubmissionRequirements, TeamNotes]

  predicate FieldsValid(v: FormValues, fs: seq<Field>) {
    forall i :: 0 <= i < |fs| ==> FieldValid(fs[i], Get(v, fs[i]))
  }

  /** Every field of the form is a key of the schema. */
  lemma AllFieldsListed()
    ensures forall f :: f in AllFields
  {
    forall f ensures f in AllFields {
      match f
      case RfpTitle => assert AllFields[0] == f;
      case ClientName => assert AllFields[1] == f;
      case DueDate => assert AllFields[2] == f;
      case SubmissionRequirements => assert AllFields[3] == f;
      case TeamNotes => assert AllFields[4] == f;
    }
  }

  /** The listed fields are valid exactly when each field that occurs in the list is. */
  lemma FieldsValidMembers(v: FormValues, fs: seq<Field>)
    ensures FieldsValid(v, fs) <==> forall f :: f in fs ==> FieldValid(f, Get(v, f))
  {
    if forall f :: f in fs ==> FieldValid(f, Get(v, f)) {
      forall i | 0 <= i < |fs| ensures FieldValid(fs[i], Get(v, fs[i])) {
        assert fs[i] in fs;
      }
    }
  }

  /** `formSchema.safeParse` succeeds exactly when every one of the five fields is valid. */
  predicate SchemaValid(v: FormValues)
    ensures SchemaValid(v) <==> forall f :: FieldValid(f, Get(v, f))
  {
    AllFieldsListed();
    FieldsValidMembers(v, AllFields);
    FieldsValid(v, AllFields)
  }

  lemma {:induction false} FullMatchPositionwise(s: string, p: seq<Atom>)
    ensures FullMatch(s, p) <==> |s| == |p| && forall i :: 0 <= i < |s| ==> AtomMatches(p[i], s[i])
    decreases p
  {
    if p != [] && s != [] {
      FullMatchPositionwise(s[1..], p[1..]);
      if |s| == |p| && forall i :: 0 <= i < |s| ==> AtomMatches(p[i], s[i]) {
        assert forall i :: 0 <= i < |s[1..]| ==> s[1..][i] == s[i + 1] && p[1..][i] == p[i + 1];
      }
      if FullMatch(s, p) {
        forall i | 0 <= i < |s| ensures AtomMatches(p[i], s[i]) {
          if i > 0 {
            assert s[1..][i - 1] == s[i] && p[1..][i - 1] == p[i];
          }
        }
      }
    }
  }

  /**
   * A due date is accepted exactly when it has ten characters, ASCII digits at
   * positions 0-3, 5-6 and 8-9 and '-' at 4 and 7; the month and day are not range-checked.
   */
  lemma DueDateShape(s: string)
    ensures FieldValid(DueDate, s) <==>
      && |s| == 10 && s[4] == '-' && s[7] == '-'
      && forall i :: 0 <= i < 10 && i != 4 && i != 7 ==> IsDigit(s[i])
  {
    FullMatchPositionwise(s, DatePattern);
    if |s| == 10 && s[4] == '-' && s[7] == '-' && forall i :: 0 <= i < 10 && i != 4 && i != 7 ==> IsDigit(s[i]) {
      forall i | 0 <= i < |s| ensures AtomMatches(DatePattern[i], s[i]) {
        assert DatePattern[i] == if i == 4 || i == 7 then Literal('-') else Digit;
      }
    }
    if FieldValid(DueDate, s) {
      assert AtomMatches(DatePattern[4], s[4]) && AtomMatches(DatePattern[7], s[7]);
      forall i | 0 <= i < 10 && i != 4 && i != 7 ensures IsDigit(s[i]) {
        assert AtomMatches(DatePattern[i], s[i]);
      }
    }
  }

  /** Examples at the edges of the rules: a four-letter title fails, a five-letter one passes. */
  lemma LengthExamples()
    ensures !FieldValid(RfpTitle, "Test") && FieldValid(RfpTitle, "Testt")
    ensures FieldValid(ClientName, "Acme") && !FieldValid(ClientName, "A")
  {
  }

  /** The date rule checks the shape only: "2024-99-99" is accepted as a date. */
  lemma DateShapeOnly()
    ensures FieldValid(DueDate, "2024-99-99")
  {
    DueDateShape("2024-99-99");
  }

  /** A single-digit month does not fit the pattern. */
  lemma DateNeedsTwoDigitMonth()
    ensures !FieldValid(DueDate, "2024-9-15")
  {
  }

  // ---------------------------------------------------------------- the steps

  /** A wizard step; the review step has no `fields` entry at all. */
  datatype Step = Step(id: nat, name: string, fields: Option<seq<Field>>)

  const Steps: seq<Step> := [
    Step(1, "RFP Details", Some([RfpTitle, ClientName, DueDate])),
    Step(2, "Requirements", Some([SubmissionRequirements, TeamNotes])),
    Step(3, "Review & Submit", None)
  ]

  /** The first two steps' field lists partition the schema's keys; the last step has none. */
  lemma StepsPartitionSchema()
    ensures Steps[0].fields.Some? && Steps[1].fields.Some? && Steps[2].fields.None?
    ensures multiset(Steps[0].fields.value + Steps[1].fields.value) == multiset(AllFields)
    ensures forall f :: f in AllFields
    ensures forall f :: f in Steps[0].fields.value <==> f !in Steps[1].fields.value
  {
    var a, b := Steps[0].fields.value, Steps[1].fields.value;
    assert a + b == AllFields;
    AllFieldsListed();
    forall f ensures f in a <==> f !in b {
      match f
      case RfpTitle => assert a[0] == f;
      case ClientName => assert a[1] == f;
      case DueDate => assert a[2] == f;
      case SubmissionRequirements => assert b[0] == f;
      case TeamNotes => assert b[1] == f;
    }
  }

  /** The whole schema holds exactly when both field-owning steps pass. */
  lemma SchemaValidIffSteps(v: FormValues)
    ensures SchemaValid(v) <==> FieldsValid(v, Steps[0].fields.value) && FieldsValid(v, Steps[1].fields.value)
  {
    var a, b := Steps[0].fields.value, Steps[1].fields.value;
    if FieldsValid(v, a) && FieldsValid(v, b) {
      forall i | 0 <= i < |AllFields| ensures FieldValid(AllFields[i], Get(v, AllFields[i])) {
        if i < 3 { assert AllFields[i] == a[i]; } else { assert AllFields[i] == b[i - 3]; }
      }
    }
    if SchemaValid(v) {
      assert forall i :: 0 <= i < 3 ==> a[i] == AllFields[i];
      assert forall i :: 0 <= i < 2 ==> b[i] == AllFields[i + 3];
    }
  }

  /**
   * Passing Next on the second step does not make the review step's submit pass: the
   * first step's fields are not re-checked until `handleSubmit`, and one of them may have
   * been cleared after leaving that step.
   */
  lemma ReviewStepCanReject()
    ensures var v := FormValues("", "Acme", "2024-01-15", "Full proposal", "");
      TriggerPasses(v, Steps[1].fields) && !SchemaValid(v)
  {
    var v := FormValues("", "Acme", "2024-01-15", "Full proposal", "");
    assert !FieldValid(RfpTitle, Get(v, RfpTitle));
  }

  /**
   * What `trigger(fields)` reports: whether the named fields are valid, or, when the
   * list is absent (`undefined`), whether the whole form is.
   */
  predicate TriggerPasses(v: FormValues, fields: Option<seq<Field>>)
    ensures TriggerPasses(v, fields) <==>
      forall f :: (fields.None? || f in fields.value) ==> FieldValid(f, Get(v, f))
  {
    match fields
    case Some(fs) => FieldsValidMembers(v, fs); FieldsValid(v, fs)
    case None => SchemaValid(v)
  }

  // ---------------------------------------------------------------- the view of the step counter

  datatype StepStatus = Completed | Active | Pending

  /** How the stepper draws step `index`: a check mark, highlighted, or grey. */
  function StatusOf(currentStep: nat, index: nat): (st: StepStatus)
    ensures st == Completed <==> index < currentStep
    ensures st == Active <==> index == currentStep
    ensures st == Pending <==> currentStep < index
  {
    if currentStep > index then Completed
    else if currentStep == index then Active
    else Pending
  }

  /** Exactly one step is active, and the steps before it are the completed ones. */
  lemma StepperCounts(currentStep: nat)
    requires currentStep < |Steps|
    ensures (set i | 0 <= i < |Steps| && StatusOf(currentStep, i) == Active) == {currentStep}
    ensures |set i | 0 <= i < |Steps| && StatusOf(currentStep, i) == Completed| == currentStep
  {
    var done := set i | 0 <= i < |Steps| && StatusOf(currentStep, i) == Completed;
    if currentStep == 0 {
      assert done == {};
    } else if currentStep == 1 {
      assert done == {0};
    } else {
      assert done == {0, 1};
    }
  }

  /** The Previous button is disabled exactly on the first step. */
  function PrevDisabled(currentStep: nat): (disabled: bool)
    requires currentStep < |Steps|
    ensures disabled <==> StatusOf(currentStep, 0) == Active
  {
    currentStep == 0
  }

  /** Next is offered before the last step; on the last step Submit is offered instead. */
  function NextOffered(currentStep: nat): (offered: bool)
    requires currentStep < |Steps|
    ensures offered <==> Steps[currentStep].fields.Some?
    ensures !offered <==> currentStep == 2
  {
    currentStep < |Steps| - 1
  }

  /** The wizard's state: the step counter and the form's values. */
  class Wizard {
    var currentStep: nat
    var values: FormValues

    /** The step counter indexes `steps`. */
    ghost predicate Valid()
      reads this
    {
      currentStep < |Steps|
    }

    constructor()
      ensures Valid()
      ensures currentStep == 0 && values == EmptyForm
    {
      currentStep := 0;
      values := EmptyForm;
    }

    /**
     * Typing into the input of field `f`. The shown step's inputs are editable, and so are
     * those of the step just left, whose panel stays mounted while its exit animation
     * runs; the model admits an edit of any field on any step.
     */
    method Edit(f: Field, s: string)
      requires Valid()
      modifies this
      ensures Valid()
      ensures currentStep == old(currentStep)
      ensures values == Set(old(values), f, s)
    {
      values := Set(values, f, s);
    }

    /** `handleNext`: validate the current step's fields and advance if they pass. */
    method Next() returns (passed: bool)
      requires Valid()
      modifies this
      ensures Valid()
      ensures values == old(values)
      ensures passed == TriggerPasses(values, Steps[old(currentStep)].fields)
      ensures passed && old(currentStep) < |Steps| - 1 ==> currentStep == old(currentStep) + 1
      ensures !passed || old(currentStep) == |Steps| - 1 ==> currentStep == old(currentStep)
    {
      passed := TriggerPasses(values, Steps[currentStep].fields);
      if !passed {
        return;
      }
      if currentStep < |Steps| - 1 {
        currentStep := currentStep + 1;
      }
    }

    /** `handlePrev`: step back unless already on the first step; nothing is validated. */
    method Prev()
      requires Valid()
      modifies this
      ensures Valid()
      ensures values == old(values)
      ensures currentStep == if old(currentStep) > 0 then old(currentStep) - 1 else 0
    {
      if currentStep > 0 {
        currentStep := currentStep - 1;
      }
    }

    /**
     * `handleSubmit(processForm)`: the record handed to `processForm`, which is the form's
     * values when the whole schema passes and nothing otherwise.
     */
    method Submit() returns (submitted: Option<FormValues>)
      requires Valid()
      ensures submitted.Some? <==> SchemaValid(values)
      ensures submitted.Some? ==> submitted.value == values
    {
      if SchemaValid(values) {
        submitted := Some(values);
      } else {
        submitted := None;
      }
    }
  }
}
