/**
 * The trip-creation wizard: four steps (destination, duration, budget, travellers) with a gate
 * on each forward move, the check before a trip is generated, and the prompt built by filling
 * the template's placeholders with the answers.
 */
module CreateTrip {
  import opened Wrappers
  import opened Js

  const DefaultLocation := "Nashik, Maharashtra, India"

  /** The pieces of the prompt template around its four placeholders. */
  const Lead := "Generate Travel Plan for Location : "
  const AfterLocation := " for "
  const AfterDays := " Days for "
  const AfterTraveler := " with a "
  const Tail := " budget, Give me a Hotels options list with HotelName,Hotel address,Price in Indian Rupees (₹), hotel image url,geo coordinates,rating,descriptions and suggest itinerary with placeName,Place Details,Place Image Url, Geo Coordinates,ticket Pricing in Indian Rupees (₹),rating,Time travel each of the location for 3 days with each day plan with best time to visit in JSON format."

  /** The prompt template, `AI_PROMPT`. */
  const AiPrompt := Lead + "{location}" + AfterLocation + "{totalDays}" + AfterDays + "{traveler}"
                    + AfterTraveler + "{budget}" + Tail

  /** The placeholders filled, first occurrence of each, in this order. */
  function Fill(template: string, form: map<string, string>): string
  {
    var p := ReplaceFirst(template, "{location}", Field(form, "location"));
    var p := ReplaceFirst(p, "{totalDays}", Field(form, "totalDays"));
    var p := ReplaceFirst(p, "{traveler}", Field(form, "traveler"));
    ReplaceFirst(p, "{budget}", Field(form, "budget"))
  }

  /** `FINAL_PROMPT`. */
  function FinalPrompt(form: map<string, string>): string
  {
    Fill(AiPrompt, form)
  }

  /** The text between the placeholders, and the answers placed before the last one, hold no '{'. */
  predicate BraceFree(s: string)
  {
    '{' !in s
  }

  /**
   * Filling a template whose placeholders appear in order, separated by text without a '{',
   * puts each answer in its own placeholder's place, provided the answers placed earlier hold
   * no '{' that a later replacement could take for the start of its placeholder.
   */
  lemma FillInOrder(lead: string, m1: string, m2: string, m3: string, tail: string, form: map<string, string>)
    requires BraceFree(lead) && BraceFree(m1) && BraceFree(m2) && BraceFree(m3)
    requires BraceFree(Field(form, "location")) && BraceFree(Field(form, "totalDays")) && BraceFree(Field(form, "traveler"))
    ensures Fill(lead + "{location}" + m1 + "{totalDays}" + m2 + "{traveler}" + m3 + "{budget}" + tail, form) ==
      lead + Field(form, "location") + m1 + Field(form, "totalDays") + m2 + Field(form, "traveler") + m3
      + Field(form, "budget") + tail
  {
    var loc, days, trav, budget := Field(form, "location"), Field(form, "totalDays"), Field(form, "traveler"), Field(form, "budget");
    var template := lead + "{location}" + m1 + "{totalDays}" + m2 + "{traveler}" + m3 + "{budget}" + tail;
    var b2 := m3 + "{budget}" + tail;
    var b1 := m2 + "{traveler}" + b2;
    var b0 := m1 + "{totalDays}" + b1;
    assert template == lead + "{location}" + b0;
    PlaceholderStep(lead, "{location}", b0, loc);
    var p1 := ReplaceFirst(template, "{location}", loc);

    var a1 := lead + loc + m1;
    Regroup(lead + loc, m1, "{totalDays}", b1);
    PlaceholderStep(a1, "{totalDays}", b1, days);
    var p2 := ReplaceFirst(p1, "{totalDays}", days);

    var a2 := a1 + days + m2;
    Regroup(a1 + days, m2, "{traveler}", b2);
    PlaceholderStep(a2, "{traveler}", b2, trav);
    var p3 := ReplaceFirst(p2, "{traveler}", trav);

    var a3 := a2 + trav + m3;
    Regroup(a2 + trav, m3, "{budget}", tail);
    PlaceholderStep(a3, "{budget}", tail, budget);
  }

  lemma Regroup(x: string, y: string, z: string, w: string)
    ensures x + (y + z + w) == x + y + z + w
  {
  }

  /** One replacement: a placeholder preceded by brace-free text is the occurrence replaced. */
  lemma PlaceholderStep(a: string, pat: string, b: string, rep: string)
    requires BraceFree(a) && |pat| > 0 && pat[0] == '{'
    ensures ReplaceFirst(a + pat + b, pat, rep) == a + rep + b
  {
    ReplaceFirstAfterPlainPrefix(a, pat, b, rep);
  }

  /**
   * When the location, days and traveller answers hold no '{', the prompt is the template
   * with location, days, traveller and budget in their places.
   */
  lemma FinalPromptFillsPlaceholders(form: map<string, string>)
    requires BraceFree(Field(form, "location")) && BraceFree(Field(form, "totalDays")) && BraceFree(Field(form, "traveler"))
    ensures FinalPrompt(form) ==
      Lead + Field(form, "location") + AfterLocation + Field(form, "totalDays") + AfterDays
      + Field(form, "traveler") + AfterTraveler + Field(form, "budget") + Tail
  {
    assert BraceFree(Lead) && BraceFree(AfterLocation) && BraceFree(AfterDays) && BraceFree(AfterTraveler);
    FillInOrder(Lead, AfterLocation, AfterDays, AfterTraveler, Tail, form);
  }

  /** `isValidDays`: the duration answer parses to a positive whole number of days. */
  predicate IsValidDays(form: map<string, string>)
  {
    var days := ParseInt(Field(form, "totalDays"));
    days.Some? && days.value > 0
  }

  /** A duration typed as a plain number of days is valid exactly when it is positive. */
  lemma ValidDaysOfNumeral(form: map<string, string>, n: nat)
    ensures IsValidDays(WithField(form, "totalDays", NatToString(n))) <==> n > 0
  {
    ParseIntNatToString(n);
  }

  /** The answers a trip needs before it can be generated. */
  predicate Complete(form: map<string, string>)
  {
    Filled(form, "totalDays") && Filled(form, "location") && Filled(form, "budget") && Filled(form, "traveler")
  }

  const SelectDestination := "Please select a destination"
  const EnterDuration := "Please enter duration"
  const InvalidDays := "Please enter a valid number of days (greater than 0)"
  const SelectBudget := "Please select budget"
  const FillAll := "Please fill all details!"
  const FormGenerated := "Form generated."

  class Wizard {
    var formData: map<string, string>
    var currentStep: int
    var openDialog: bool

    /** The step counter is one of the four steps. */
    predicate Valid()
      reads this
    {
      1 <= currentStep <= 4
    }

    constructor()
      ensures Valid()
      ensures formData == map["location" := DefaultLocation] && currentStep == 1 && !openDialog
    {
      formData := map["location" := DefaultLocation];
      currentStep := 1;
      openDialog := false;
    }

    /** `handleInputChange`: only the named answer changes. */
    method HandleInputChange(name: string, value: string)
      requires Valid()
      modifies this
      ensures Valid()
      ensures formData == WithField(old(formData), name, value)
      ensures currentStep == old(currentStep) && openDialog == old(openDialog)
    {
      formData := WithField(formData, name, value);
    }

    /**
     * `nextStep`: the step stays put, with a notice, when the current step's answer is
     * missing (or, on step 2, does not parse to a positive number); otherwise it advances,
     * stopping at 4.
     */
    method NextStep() returns (notice: Option<string>)
      requires Valid()
      modifies this
      ensures Valid()
      ensures formData == old(formData) && openDialog == old(openDialog)
      ensures old(currentStep) == 1 && !Filled(formData, "location") ==> notice == Some(SelectDestination)
      ensures old(currentStep) == 2 && !Filled(formData, "totalDays") ==> notice == Some(EnterDuration)
      ensures old(currentStep) == 2 && Filled(formData, "totalDays") && !IsValidDays(formData) ==> notice == Some(InvalidDays)
      ensures old(currentStep) == 3 && !Filled(formData, "budget") ==> notice == Some(SelectBudget)
      ensures notice.Some? ==> currentStep == old(currentStep)
      ensures notice.None? ==> currentStep == if old(currentStep) < 4 then old(currentStep) + 1 else 4
      ensures notice.None? <==>
        && (old(currentStep) == 1 ==> Filled(formData, "location"))
        && (old(currentStep) == 2 ==> Filled(formData, "totalDays") && IsValidDays(formData))
        && (old(currentStep) == 3 ==> Filled(formData, "budget"))
    {
      if currentStep == 1 && !Filled(formData, "location") {
        return Some(SelectDestination);
      }
      if currentStep == 2 && !Filled(formData, "totalDays") {
        return Some(EnterDuration);
      }
      if currentStep == 2 && !IsValidDays(formData) {
        return Some(InvalidDays);
      }
      if currentStep == 3 && !Filled(formData, "budget") {
        return Some(SelectBudget);
      }
      if currentStep < 4 {
        currentStep := currentStep + 1;
      }
      return None;
    }

    /** `prevStep`: one step back, never below the first. */
    method PrevStep()
      requires Valid()
      modifies this
      ensures Valid()
      ensures currentStep == if old(currentStep) > 1 then old(currentStep) - 1 else 1
      ensures formData == old(formData) && openDialog == old(openDialog)
    {
      if currentStep > 1 {
        currentStep := currentStep - 1;
      }
    }

    /**
     * `OnGenerateTrip`: with nobody signed in the sign-in dialog opens; with an answer missing
     * a notice asks for all details; otherwise the filled prompt is what is sent for generation.
     */
    method OnGenerateTrip(signedIn: bool) returns (prompt: Option<string>, notice: Option<string>)
      requires Valid()
      modifies this
      ensures Valid()
      ensures !signedIn ==> openDialog && prompt.None? && notice.None?
      ensures signedIn ==> openDialog == old(openDialog)
      ensures signedIn && !Complete(formData) ==> prompt.None? && notice == Some(FillAll)
      ensures prompt.Some? <==> signedIn && Complete(formData)
      ensures prompt.Some? ==> prompt.value == FinalPrompt(formData) && notice == Some(FormGenerated)
      ensures formData == old(formData) && currentStep == old(currentStep)
    {
      if !signedIn {
        openDialog := true;
        return None, None;
      }
      if !Complete(formData) {
        return None, Some(FillAll);
      }
      return Some(FinalPrompt(formData)), Some(FormGenerated);
    }
  }
}
