/**
 * The pricing page: the plan catalogue, the program options it derives for
 * the enrolment dialog, the dialog's form, and the page state that opens it.
 */
module PricingPage {
  import opened Wrappers
  import opened Session
  import opened Collections

  datatype Plan = Plan(name: string, price: string, period: string)

  datatype Category = Category(title: string, plans: seq<Plan>)

  const OneToOne := "One-to-One Classes"
  const GroupClasses := "Group Classes"
  const OncePerWeek := "1 Class per Week"
  const TwicePerWeek := "2 Classes per Week"

  /** The catalogue (descriptions and feature lists left out). */
  const PricingPlans: seq<Category> := [
    Category(OneToOne, [Plan(OncePerWeek, "$34", "per week"), Plan(TwicePerWeek, "$68", "per week")]),
    Category(GroupClasses, [Plan(OncePerWeek, "$22", "per week"), Plan(TwicePerWeek, "$45", "per week")])
  ]

  /** The label and value of one program option: `${title} - ${name}`. */
  function OptionLabel(title: string, name: string): string
  {
    title + " - " + name
  }

  /** The options one category contributes: `c.plans.map(p => label)`. */
  function CategoryOptions(c: Category): seq<string>
  {
    Map(c.plans, (p: Plan) => OptionLabel(c.title, p.name))
  }

  /** `categories.flatMap(c => c.plans.map(p => label))`, in declaration order. */
  function ProgramOptions(categories: seq<Category>): seq<string>
  {
    if categories == [] then []
    else CategoryOptions(categories[0]) + ProgramOptions(categories[1..])
  }

  /** The select offers an option for every (category, plan) pair. */
  lemma {:induction false} OptionForEveryPlan(categories: seq<Category>, c: int, p: int)
    requires 0 <= c < |categories| && 0 <= p < |categories[c].plans|
    ensures OptionLabel(categories[c].title, categories[c].plans[p].name) in ProgramOptions(categories)
  {
    var head := CategoryOptions(categories[0]);
    if c == 0 {
      MapAt(categories[0].plans, (p: Plan) => OptionLabel(categories[0].title, p.name), p);
      assert head[p] in head;
    } else {
      OptionForEveryPlan(categories[1..], c - 1, p);
    }
  }

  lemma TwoPlanOptions(c: Category)
    requires |c.plans| == 2
    ensures CategoryOptions(c) == [OptionLabel(c.title, c.plans[0].name), OptionLabel(c.title, c.plans[1].name)]
  {
    var f := (p: Plan) => OptionLabel(c.title, p.name);
    assert Map(c.plans[1..], f) == [f(c.plans[1])] + Map(c.plans[1..][1..], f);
    assert c.plans[1..][1..] == [];
  }

  /**
   * The catalogue yields four options, one per (category, plan) pair in
   * declaration order, and no two are equal.
   */
  lemma CatalogueOptions()
    ensures ProgramOptions(PricingPlans) == [
      OptionLabel(OneToOne, OncePerWeek), OptionLabel(OneToOne, TwicePerWeek),
      OptionLabel(GroupClasses, OncePerWeek), OptionLabel(GroupClasses, TwicePerWeek)]
    ensures forall i, j :: 0 <= i < j < |ProgramOptions(PricingPlans)| ==>
      ProgramOptions(PricingPlans)[i] != ProgramOptions(PricingPlans)[j]
  {
    TwoPlanOptions(PricingPlans[0]);
    TwoPlanOptions(PricingPlans[1]);
    assert PricingPlans[1..][1..] == [];
    assert ProgramOptions(PricingPlans[1..]) == CategoryOptions(PricingPlans[1]);
    var o := ProgramOptions(PricingPlans);
    assert o == [
      OptionLabel(OneToOne, OncePerWeek), OptionLabel(OneToOne, TwicePerWeek),
      OptionLabel(GroupClasses, OncePerWeek), OptionLabel(GroupClasses, TwicePerWeek)];
    assert o[0][0] == 'O' && o[1][0] == 'O' && o[2][0] == 'G' && o[3][0] == 'G';
    assert o[0][21] == '1' && o[1][21] == '2';
    assert o[2][16] == '1' && o[3][16] == '2';
  }

  /** What a pricing card hands to `handleEnroll`. */
  datatype SelectedPlan = SelectedPlan(title: string, name: string)

  /** The card for plan `p` of category `c`. */
  function CardPlan(c: int, p: int): SelectedPlan
    requires 0 <= c < |PricingPlans| && 0 <= p < |PricingPlans[c].plans|
  {
    SelectedPlan(PricingPlans[c].title, PricingPlans[c].plans[p].name)
  }

  /** The initial `program` of the form: the plan's label if one is given, else "". */
  function InitialProgram(selected: Option<SelectedPlan>): (program: string)
    ensures selected.Some? ==> program == OptionLabel(selected.value.title, selected.value.name)
    ensures selected.None? ==> program == ""
  {
    if selected.Some? then OptionLabel(selected.value.title, selected.value.name) else ""
  }

  /** The program a card's plan would preselect is one of the select's options. */
  lemma CardProgramIsAnOption(c: int, p: int)
    requires 0 <= c < |PricingPlans| && 0 <= p < |PricingPlans[c].plans|
    ensures InitialProgram(Some(CardPlan(c, p))) in ProgramOptions(PricingPlans)
  {
    OptionForEveryPlan(PricingPlans, c, p);
  }

  datatype EnrollmentData = EnrollmentData(name: string, email: string, age: string, program: string) {

    function Get(f: EnrollmentField): string
    {
      match f
      case Name => name
      case Email => email
      case Age => age
    }

    /** `{...prev, [name]: value}`: the named input's field becomes `v`, nothing else changes. */
    function With(f: EnrollmentField, v: string): (r: EnrollmentData)
      ensures r.Get(f) == v
      ensures forall g :: g != f ==> r.Get(g) == Get(g)
      ensures r.program == program
    {
      match f
      case Name => this.(name := v)
      case Email => this.(email := v)
      case Age => this.(age := v)
    }
  }

  /** The `name` attributes of the text inputs; `program` comes from a select. */
  datatype EnrollmentField = Name | Email | Age

  const FillAllFields := "Please fill in all fields"
  const EnrollmentSubmitted := "Enrollment submitted successfully! Our team will contact you soon."

  /** The `EnrollmentForm` component's state. */
  class EnrollmentForm {
    var formData: EnrollmentData

    /** `useState`'s initializer runs once, with the plan given at construction. */
    constructor (selected: Option<SelectedPlan>)
      ensures formData == EnrollmentData("", "", "", InitialProgram(selected))
    {
      formData := EnrollmentData("", "", "", InitialProgram(selected));
    }

    /** `handleChange`: only the input's own field changes. */
    method HandleChange(f: EnrollmentField, v: string)
      modifies this
      ensures formData == old(formData).With(f, v)
    {
      formData := formData.With(f, v);
    }

    /** `handleSelectChange`: only `program` changes. */
    method HandleSelectChange(v: string)
      modifies this
      ensures formData == old(formData).(program := v)
    {
      formData := formData.(program := v);
    }

    /**
     * `handleSubmit`: with any of the four fields empty it complains and does
     * not call `onClose`; otherwise it confirms and calls `onClose` once.
     * The form itself is not cleared.
     */
    method HandleSubmit() returns (toast: Toast, callsOnClose: bool)
      ensures var d := formData;
        callsOnClose <==> d.name != "" && d.email != "" && d.age != "" && d.program != ""
      ensures toast == if callsOnClose then Success(EnrollmentSubmitted) else Error(FillAllFields)
    {
      var d := formData;
      if d.name == "" || d.email == "" || d.age == "" || d.program == "" {
        toast, callsOnClose := Error(FillAllFields), false;
        return;
      }
      toast, callsOnClose := Success(EnrollmentSubmitted), true;
    }
  }

  /** The `Pricing` page's state; it mounts its one `EnrollmentForm` with no plan. */
  class Pricing {
    var isEnrollmentOpen: bool
    var selectedPlan: Option<SelectedPlan>
    const form: EnrollmentForm

    constructor ()
      ensures !isEnrollmentOpen && selectedPlan == None
      ensures fresh(form) && form.formData == EnrollmentData("", "", "", "")
    {
      isEnrollmentOpen := false;
      selectedPlan := None;
      form := new EnrollmentForm(None);
    }

    /**
     * `handleEnroll`: remember the plan and open the dialog. The mounted form
     * is not rebuilt, so its `program` keeps whatever it held.
     */
    method HandleEnroll(plan: SelectedPlan)
      modifies this`selectedPlan, this`isEnrollmentOpen
      ensures selectedPlan == Some(plan) && isEnrollmentOpen
      ensures form.formData == old(form.formData)
    {
      selectedPlan := Some(plan);
      isEnrollmentOpen := true;
    }

    /** The `onClose` the page passes: close the dialog. */
    method CloseEnrollment()
      modifies this`isEnrollmentOpen
      ensures !isEnrollmentOpen
    {
      isEnrollmentOpen := false;
    }

    /** Submitting the dialog: a complete form closes it, an incomplete one leaves it as it was. */
    method SubmitEnrollment() returns (toast: Toast)
      modifies this`isEnrollmentOpen
      ensures var d := form.formData;
        if d.name != "" && d.email != "" && d.age != "" && d.program != "" then
          toast == Success(EnrollmentSubmitted) && !isEnrollmentOpen
        else
          toast == Error(FillAllFields) && isEnrollmentOpen == old(isEnrollmentOpen)
    {
      var close;
      toast, close := form.HandleSubmit();
      if close {
        CloseEnrollment();
      }
    }
  }
}
