/** The registration modal: four text fields checked by a schema, all or
    nothing, and on success a fixed sequence of effects ending with the
    modal being closed. The schema library's email check is a parameter. */
module RegistrationForm {
  import opened Wrappers

  datatype FormData = FormData(fullName: string, gamerTag: string, email: string, favoriteGame: string)

  datatype Field = FullName | GamerTag | Email | FavoriteGame

  const AllFields: set<Field> := {FullName, GamerTag, Email, FavoriteGame}

  const FullNameMessage: string := "Full name must be at least 2 characters"
  const GamerTagShortMessage: string := "Gamer tag must be at least 3 characters"
  const GamerTagLongMessage: string := "Gamer tag must be less than 20 characters"
  const EmailMessage: string := "Please enter a valid email address"
  const FavoriteGameMessage: string := "Please enter your favorite game"

  /** The form's inputs before anything is typed, and after `reset()`. */
  const EmptyForm: FormData := FormData("", "", "", "")

  /** The email check belongs to the schema library; the model only fixes the
      two cases the component's tests rely on. */
  predicate AgreesWithTests(isEmail: string -> bool) {
    !isEmail("invalidemail") && isEmail("valid@email.com")
  }

  function Value(data: FormData, f: Field): string {
    match f
    case FullName => data.fullName
    case GamerTag => data.gamerTag
    case Email => data.email
    case FavoriteGame => data.favoriteGame
  }

  /** The first message the schema reports for one field, if the field fails.
      Each verdict depends on that field's own value alone. */
  function FieldError(data: FormData, f: Field, isEmail: string -> bool): (err: Option<string>)
    ensures f == Email ==> (err.None? <==> isEmail(data.email))
    ensures f != Email ==> (err.None? ==> |Value(data, f)| >= 2)
    ensures err.Some? ==> err.value in {FullNameMessage, GamerTagShortMessage, GamerTagLongMessage, EmailMessage, FavoriteGameMessage}
  {
    match f
    case FullName => if |data.fullName| < 2 then Some(FullNameMessage) else None
    case GamerTag =>
      if |data.gamerTag| < 3 then Some(GamerTagShortMessage)
      else if |data.gamerTag| > 20 then Some(GamerTagLongMessage)
      else None
    case Email => if !isEmail(data.email) then Some(EmailMessage) else None
    case FavoriteGame => if |data.favoriteGame| < 2 then Some(FavoriteGameMessage) else None
  }

  predicate AllValid(data: FormData, isEmail: string -> bool) {
    forall f :: f in AllFields ==> FieldError(data, f, isEmail).None?
  }

  datatype Validation = Passed(data: FormData) | Rejected(errors: map<Field, string>)

  /** The resolver's verdict: the data unchanged when every field passes,
      otherwise one message per failing field and nothing for the others. */
  function Validate(data: FormData, isEmail: string -> bool): (r: Validation)
    ensures r.Passed? <==> AllValid(data, isEmail)
    ensures r.Passed? ==> r.data == data
    ensures r.Rejected? ==> r.errors != map[]
    ensures r.Rejected? ==> forall f :: f in r.errors <==> FieldError(data, f, isEmail).Some?
    ensures r.Rejected? ==> forall f :: f in r.errors ==> r.errors[f] == FieldError(data, f, isEmail).value
  {
    var errors := map f | f in AllFields && FieldError(data, f, isEmail).Some? :: FieldError(data, f, isEmail).value;
    assert forall f :: FieldError(data, f, isEmail).Some? ==> f in errors;
    if errors == map[] then Passed(data) else Rejected(errors)
  }

  /** The full name needs two characters and nothing else: no maximum, no
      restriction on which characters. */
  lemma FullNameRule(data: FormData, isEmail: string -> bool)
    ensures FieldError(data, FullName, isEmail).None? <==> |data.fullName| >= 2
    ensures |data.fullName| >= 2 ==> AllValid(data, isEmail) == AllValid(data.(fullName := "Jo"), isEmail)
  {
    if |data.fullName| >= 2 {
      assert forall f :: f in AllFields ==> FieldError(data, f, isEmail) == FieldError(data.(fullName := "Jo"), f, isEmail);
    }
  }

  /** The gamer tag passes for 3 to 20 characters, both ends included, so a
      20-character tag is accepted although the message says "less than 20". */
  lemma GamerTagRule(data: FormData, isEmail: string -> bool)
    ensures FieldError(data, GamerTag, isEmail).None? <==> 3 <= |data.gamerTag| <= 20
    ensures |data.gamerTag| == 20 ==> FieldError(data, GamerTag, isEmail).None?
    ensures |data.gamerTag| == 21 ==> FieldError(data, GamerTag, isEmail) == Some(GamerTagLongMessage)
    ensures |data.gamerTag| < 3 ==> FieldError(data, GamerTag, isEmail) == Some(GamerTagShortMessage)
  {
  }

  /** The favourite game needs two characters; its content is not checked. */
  lemma FavoriteGameRule(data: FormData, isEmail: string -> bool)
    ensures FieldError(data, FavoriteGame, isEmail).None? <==> |data.favoriteGame| >= 2
    ensures |data.favoriteGame| < 2 ==> FieldError(data, FavoriteGame, isEmail) == Some(FavoriteGameMessage)
  {
  }

  /** The effects the page produces, in order. */
  datatype Effect =
    | Wait(ms: nat)                      // the simulated API call
    | Alert(text: string)                // `alert(...)`
    | LogLine(caption: string, data: FormData) // `console.log('Form data:', data)`
    | ResetForm                          // `reset()`
    | CloseModal                         // `onClose()`

  const SubmitDelayMs: nat := 1000

  const SuccessPrefix: string := "Registration successful for "

  /** The success alert names the gamer tag the form was submitted with. */
  function SuccessText(data: FormData): (text: string)
    ensures |text| == |SuccessPrefix| + |data.gamerTag| + 1
    ensures text[..|SuccessPrefix|] == SuccessPrefix && text[|text| - 1] == '!'
    ensures text[|SuccessPrefix|..|text| - 1] == data.gamerTag
  {
    SuccessPrefix + data.gamerTag + "!"
  }

  /** What `onSubmit` does after its delay: the alert comes first, the form
      is reset before the modal is closed, and closing is last. */
  function AfterDelay(data: FormData): (es: seq<Effect>)
    ensures |es| == 4 && es[0] == Alert(SuccessText(data)) && es[|es| - 1] == CloseModal
    ensures es[1] == LogLine("Form data:", data) && es[2] == ResetForm
    ensures ResetForm in es[..|es| - 1] && CloseModal !in es[..|es| - 1]
  {
    var es := [Alert(SuccessText(data)), LogLine("Form data:", data), ResetForm, CloseModal];
    assert es[..|es| - 1] == [Alert(SuccessText(data)), LogLine("Form data:", data), ResetForm];
    es
  }

  /** The browser's own check of the `type="email"` input belongs to the
      browser; the model only fixes the two addresses of the component's
      tests: the one without '@' is stopped, the valid one is let through. */
  predicate BrowserAgreesWithTests(browserAccepts: string -> bool) {
    !browserAccepts("invalidemail") && browserAccepts("valid@email.com")
  }

  /** The effects of one press of the submit button once the browser has let
      the submit event through, i.e. those of `handleSubmit(onSubmit)`. */
  function SubmitTrace(data: FormData, isEmail: string -> bool): (t: seq<Effect>)
    ensures t != [] <==> AllValid(data, isEmail)
    ensures t != [] ==> t[0] == Wait(SubmitDelayMs) && t[1..] == AfterDelay(data)
  {
    if Validate(data, isEmail).Passed? then [Wait(SubmitDelayMs)] + AfterDelay(data) else []
  }

  /** All or nothing, once the browser has let the press through: the
      submission produces effects, and in particular closes the modal,
      exactly when every field passes; on success the alert names the
      gamer tag, the form is reset before the modal closes, and closing is last. */
  lemma SubmitAllOrNothing(data: FormData, isEmail: string -> bool)
    ensures (SubmitTrace(data, isEmail) != []) <==> AllValid(data, isEmail)
    ensures (CloseModal in SubmitTrace(data, isEmail)) <==> AllValid(data, isEmail)
    ensures (Alert(SuccessText(data)) in SubmitTrace(data, isEmail)) <==> AllValid(data, isEmail)
    ensures AllValid(data, isEmail) ==>
      var t := SubmitTrace(data, isEmail);
      && |t| == 5 && t[0] == Wait(1000) && t[1] == Alert("Registration successful for " + data.gamerTag + "!")
      && t[2] == LogLine("Form data:", data) && t[3] == ResetForm && t[4] == CloseModal
  {
  }

  /** The effects of one press of the submit button: nothing at all when the
      browser's check of the email input stops the submit event, otherwise
      those of the schema-checked submission. */
  function PressTrace(data: FormData, browserAccepts: string -> bool, isEmail: string -> bool): (t: seq<Effect>)
    ensures t != [] <==> browserAccepts(data.email) && AllValid(data, isEmail)
    ensures t != [] ==> t == SubmitTrace(data, isEmail)
  {
    if browserAccepts(data.email) then SubmitTrace(data, isEmail) else []
  }

  /** The test's malformed address never reaches the schema in a browser: the
      press has no effect even under an email check that would accept it;
      the valid record still goes through and closes the modal. */
  lemma BrowserBlocksTestAddress(browserAccepts: string -> bool, isEmail: string -> bool)
    requires BrowserAgreesWithTests(browserAccepts)
    ensures PressTrace(FormData("John Doe", "ProGamer123", "invalidemail", "Valorant"), browserAccepts, isEmail) == []
    ensures AgreesWithTests(isEmail) ==>
      var good := FormData("John Doe", "ProGamer123", "valid@email.com", "Valorant");
      CloseModal in PressTrace(good, browserAccepts, isEmail)
  {
    var good := FormData("John Doe", "ProGamer123", "valid@email.com", "Valorant");
    if AgreesWithTests(isEmail) {
      assert AllValid(good, isEmail);
    }
  }

  /** The two cases of the component's tests: an address without '@' blocks
      the submission and leaves the modal open; a valid one goes through. */
  lemma TestScenarios(isEmail: string -> bool)
    requires AgreesWithTests(isEmail)
    ensures var bad := FormData("John Doe", "ProGamer123", "invalidemail", "Valorant");
      && Validate(bad, isEmail) == Rejected(map[Email := EmailMessage])
      && SubmitTrace(bad, isEmail) == []
    ensures var good := FormData("John Doe", "ProGamer123", "valid@email.com", "Valorant");
      && Validate(good, isEmail) == Passed(good)
      && CloseModal in SubmitTrace(good, isEmail)
  {
    var bad := FormData("John Doe", "ProGamer123", "invalidemail", "Valorant");
    var r := Validate(bad, isEmail);
    assert FieldError(bad, Email, isEmail).Some?;
    assert r.Rejected?;
    assert r.errors.Keys == {Email};
    assert r.errors == map[Email := EmailMessage];
    var good := FormData("John Doe", "ProGamer123", "valid@email.com", "Valorant");
    assert AllValid(good, isEmail);
  }

  /** The form state kept by the form library for this component. */
  class FormState {
    var values: FormData
    var errors: map<Field, string>
    var isSubmitting: bool
    /** The data handed to `onSubmit` by the submission in flight. */
    var submitted: FormData
    /** Every effect produced so far, oldest first. */
    var effects: seq<Effect>

    constructor ()
      ensures values == EmptyForm && errors == map[] && !isSubmitting && effects == []
    {
      values := EmptyForm;
      errors := map[];
      isSubmitting := false;
      submitted := EmptyForm;
      effects := [];
    }

    /** Typing into one input. */
    method Type(f: Field, text: string)
      modifies this`values
      ensures Value(values, f) == text
      ensures forall g :: g != f ==> Value(values, g) == Value(old(values), g)
    {
      match f
      case FullName => values := values.(fullName := text);
      case GamerTag => values := values.(gamerTag := text);
      case Email => values := values.(email := text);
      case FavoriteGame => values := values.(favoriteGame := text);
    }

    /** The message under field f, if any. */
    function ErrorShown(f: Field): (shown: Option<string>)
      reads this
      ensures shown.Some? <==> f in errors
      ensures shown.Some? ==> shown.value == errors[f]
    {
      if f in errors then Some(errors[f]) else None
    }

    /** `disabled={isSubmitting}`. */
    function ButtonDisabled(): (disabled: bool)
      reads this
      ensures disabled <==> isSubmitting
    {
      isSubmitting
    }

    /** The label agrees with the disabled state. */
    function ButtonLabel(): (text: string)
      reads this
      ensures text == "Registering..." <==> ButtonDisabled()
      ensures text == "Complete Registration" <==> !ButtonDisabled()
    {
      if isSubmitting then "Registering..." else "Complete Registration"
    }

    /** The submit button is pressed. When the browser rejects the email
        input, the submit event never fires: no schema message appears and
        nothing changes. Otherwise the inputs are validated; on success the
        submission starts and waits, otherwise each failing field shows its
        message and nothing else happens. */
    method PressSubmit(browserAccepts: string -> bool, isEmail: string -> bool)
      requires !isSubmitting
      modifies this`errors, this`isSubmitting, this`submitted, this`effects
      ensures !browserAccepts(values.email) ==>
        !isSubmitting && errors == old(errors) && effects == old(effects) && submitted == old(submitted)
      ensures browserAccepts(values.email) ==> (isSubmitting <==> AllValid(values, isEmail))
      ensures browserAccepts(values.email) ==> forall f :: ErrorShown(f) == FieldError(values, f, isEmail)
      ensures isSubmitting ==> submitted == values && effects == old(effects) + [Wait(SubmitDelayMs)]
      ensures !isSubmitting ==> effects == old(effects) && submitted == old(submitted)
      ensures isSubmitting ==> ButtonDisabled() && ButtonLabel() == "Registering..."
    {
      if !browserAccepts(values.email) {
        return;
      }
      var verdict := Validate(values, isEmail);
      match verdict
      case Passed(data) =>
        errors := map[];
        isSubmitting := true;
        submitted := data;
        effects := effects + [Wait(SubmitDelayMs)];
      case Rejected(found) =>
        errors := found;
    }

    /** The delay ends: alert, log, reset, close, and the button is enabled. */
    method FinishSubmit()
      requires isSubmitting
      modifies this
      ensures effects == old(effects) + AfterDelay(old(submitted))
      ensures values == EmptyForm && errors == map[] && !isSubmitting
      ensures submitted == old(submitted)
      ensures !ButtonDisabled() && ButtonLabel() == "Complete Registration"
    {
      effects := effects + [Alert(SuccessText(submitted)), LogLine("Form data:", submitted)];
      values := EmptyForm;
      errors := map[];
      effects := effects + [ResetForm, CloseModal];
      isSubmitting := false;
    }
  }

  /** A fresh form, filled in and submitted once, with the delay allowed to
      run out: the effects are exactly the press's trace, and messages appear
      exactly for the failing fields unless the browser stopped the press. */
  method FillAndSubmit(data: FormData, browserAccepts: string -> bool, isEmail: string -> bool)
    returns (effects: seq<Effect>, shown: map<Field, string>)
    ensures effects == PressTrace(data, browserAccepts, isEmail)
    ensures !browserAccepts(data.email) ==> shown == map[]
    ensures browserAccepts(data.email) ==> forall f :: f in shown <==> FieldError(data, f, isEmail).Some?
  {
    var form := new FormState();
    form.Type(FullName, data.fullName);
    form.Type(GamerTag, data.gamerTag);
    form.Type(Email, data.email);
    form.Type(FavoriteGame, data.favoriteGame);
    assert form.values == data;
    form.PressSubmit(browserAccepts, isEmail);
    shown := form.errors;
    if form.isSubmitting {
      form.FinishSubmit();
    }
    effects := form.effects;
  }
}
