/** The vitals form of the app: five text inputs and five pickers whose
    initial choice is a "Select ..." placeholder, a check before sending and
    the payload sent to the vitals route. */
module AddUserDataScreen {
  import opened Wrappers
  import opened Text
  import opened Js
  import Vitals
  import Json

  /** The ten inputs of the form. */
  datatype Field =
    | Age | Gender | Weight | Height | SmokingStatus | AlcoholConsumption
    | CholesterolLevel | BloodPressure | FastingBloodSugar | ChestPainType

  /** The `userData` state: what each input currently shows. */
  datatype Form = Form(
    age: string, gender: string, weight: string, height: string,
    smokingStatus: string, alcoholConsumption: string, cholesterolLevel: string,
    bloodPressure: string, fastingBloodSugar: string, chestPainType: string)

  function Read(f: Form, k: Field): string {
    match k
    case Age => f.age
    case Gender => f.gender
    case Weight => f.weight
    case Height => f.height
    case SmokingStatus => f.smokingStatus
    case AlcoholConsumption => f.alcoholConsumption
    case CholesterolLevel => f.cholesterolLevel
    case BloodPressure => f.bloodPressure
    case FastingBloodSugar => f.fastingBloodSugar
    case ChestPainType => f.chestPainType
  }

  /** `{ ...prev, [key]: value }`. */
  function With(f: Form, k: Field, v: string): (g: Form)
    ensures Read(g, k) == v
    ensures forall j :: j != k ==> Read(g, j) == Read(f, j)
  {
    match k
    case Age => f.(age := v)
    case Gender => f.(gender := v)
    case Weight => f.(weight := v)
    case Height => f.(height := v)
    case SmokingStatus => f.(smokingStatus := v)
    case AlcoholConsumption => f.(alcoholConsumption := v)
    case CholesterolLevel => f.(cholesterolLevel := v)
    case BloodPressure => f.(bloodPressure := v)
    case FastingBloodSugar => f.(fastingBloodSugar := v)
    case ChestPainType => f.(chestPainType := v)
  }

  /** The five inputs filled by typing, and the five pickers. */
  predicate IsTextInput(k: Field) {
    k in {Age, Weight, Height, CholesterolLevel, BloodPressure}
  }

  const Placeholder := "Select"

  const InitialForm := Form("", "Select Gender", "", "", "Select Smoking Status",
                            "Select Alcohol Consumption", "", "", "Select Fasting Blood Sugar",
                            "Select Chest Pain")

  /** The `if` of `handleNext`: an empty text input or a picker still on
      its placeholder. */
  predicate Incomplete(f: Form): (b: bool)
    ensures b <==> exists k :: if IsTextInput(k) then Read(f, k) == "" else StartsWith(Read(f, k), Placeholder)
  {
    assert Read(f, Age) == f.age && Read(f, Weight) == f.weight && Read(f, Height) == f.height;
    assert Read(f, CholesterolLevel) == f.cholesterolLevel && Read(f, BloodPressure) == f.bloodPressure;
    assert Read(f, Gender) == f.gender && Read(f, SmokingStatus) == f.smokingStatus;
    assert Read(f, AlcoholConsumption) == f.alcoholConsumption;
    assert Read(f, FastingBloodSugar) == f.fastingBloodSugar && Read(f, ChestPainType) == f.chestPainType;
    || f.age == "" || f.weight == "" || f.height == "" || f.cholesterolLevel == "" || f.bloodPressure == ""
    || StartsWith(f.gender, Placeholder) || StartsWith(f.smokingStatus, Placeholder)
    || StartsWith(f.alcoholConsumption, Placeholder) || StartsWith(f.fastingBloodSugar, Placeholder)
    || StartsWith(f.chestPainType, Placeholder)
  }

  datatype NextStep =
    | IncompleteData
    | MustLogIn
    | Send(payload: map<string, Value>)

  /** `Number(text)`. */
  function NumberOf(text: string): Value {
    Number(StringToNumber(text))
  }

  /** The payload key of each input. */
  function Key(k: Field): string {
    match k
    case Age => "age"
    case Gender => "gender"
    case Weight => "weight"
    case Height => "height"
    case SmokingStatus => "smokingStatus"
    case AlcoholConsumption => "alcoholConsumption"
    case CholesterolLevel => "cholesterolLevel"
    case BloodPressure => "bloodPressure"
    case FastingBloodSugar => "fastingBloodSugar"
    case ChestPainType => "chestPainType"
  }

  /** The four inputs the payload converts with `Number`; the blood
      pressure, typed like them, is sent as text. */
  predicate SentAsNumber(k: Field) {
    k in {Age, Weight, Height, CholesterolLevel}
  }

  /** The input a payload key names. */
  function FieldOf(key: string): Field {
    if key == "gender" then Gender
    else if key == "weight" then Weight
    else if key == "height" then Height
    else if key == "smokingStatus" then SmokingStatus
    else if key == "alcoholConsumption" then AlcoholConsumption
    else if key == "cholesterolLevel" then CholesterolLevel
    else if key == "bloodPressure" then BloodPressure
    else if key == "fastingBloodSugar" then FastingBloodSugar
    else if key == "chestPainType" then ChestPainType
    else Age
  }

  /** The value the payload's object literal gives an input. */
  function Entry(f: Form, k: Field): Value {
    match k
    case Gender => Str(f.gender)
    case Weight => NumberOf(f.weight)
    case Height => NumberOf(f.height)
    case SmokingStatus => Str(f.smokingStatus)
    case AlcoholConsumption => Str(f.alcoholConsumption)
    case CholesterolLevel => NumberOf(f.cholesterolLevel)
    case BloodPressure => Str(f.bloodPressure)
    case FastingBloodSugar => Str(f.fastingBloodSugar)
    case ChestPainType => Str(f.chestPainType)
    case Age => NumberOf(f.age)
  }

  /** Every input has a key of the vitals route, which names it back. */
  lemma KeyNamesField()
    ensures forall k :: Key(k) in Vitals.VitalFields && FieldOf(Key(k)) == k
  {
    forall k
      ensures Key(k) in Vitals.VitalFields && FieldOf(Key(k)) == k
    {
      match k
      case Age =>
      case Gender =>
      case Weight =>
      case Height =>
      case SmokingStatus =>
      case AlcoholConsumption =>
      case CholesterolLevel =>
      case BloodPressure =>
      case FastingBloodSugar =>
      case ChestPainType =>
    }
  }

  /** The literal converts exactly the four SentAsNumber inputs. */
  lemma EntryConverts(f: Form)
    ensures forall k :: Entry(f, k) == if SentAsNumber(k) then NumberOf(Read(f, k)) else Str(Read(f, k))
  {
    forall k
      ensures Entry(f, k) == if SentAsNumber(k) then NumberOf(Read(f, k)) else Str(Read(f, k))
    {
      match k
      case Age =>
      case Gender =>
      case Weight =>
      case Height =>
      case SmokingStatus =>
      case AlcoholConsumption =>
      case CholesterolLevel =>
      case BloodPressure =>
      case FastingBloodSugar =>
      case ChestPainType =>
    }
  }

  /** The payload: `Number` of four inputs, the other six as they are
      (the order of the keys does not matter to a map). */
  function Payload(f: Form): (p: map<string, Value>)
    ensures forall k :: k in p <==> k in Vitals.VitalFields
    ensures forall k: Field :: Key(k) in p && p[Key(k)] ==
              if SentAsNumber(k) then NumberOf(Read(f, k)) else Str(Read(f, k))
  {
    KeyNamesField();
    EntryConverts(f);
    map key | key in Vitals.VitalFields :: Entry(f, FieldOf(key))
  }

  /** `handleNext` up to the request: the field check, then the token. */
  function HandleNext(f: Form, token: Option<string>): (step: NextStep)
    ensures step == IncompleteData <==> Incomplete(f)
    ensures step == MustLogIn <==> !Incomplete(f) && (token.None? || token.value == "")
    ensures step.Send? ==> step.payload == Payload(f)
  {
    if Incomplete(f) then IncompleteData
    else if token.None? || token.value == "" then MustLogIn
    else Send(Payload(f))
  }

  /** An untouched form is refused whatever the token. */
  lemma UntouchedFormRefused(token: Option<string>)
    ensures HandleNext(InitialForm, token) == IncompleteData
  {
    assert Read(InitialForm, Age) == "";
  }

  /** A filled form with every picker chosen is sent once there is a token. */
  lemma CompleteFormIsSent(f: Form, token: string)
    requires forall k :: IsTextInput(k) ==> Read(f, k) != ""
    requires forall k :: !IsTextInput(k) ==> !StartsWith(Read(f, k), Placeholder)
    requires token != ""
    ensures HandleNext(f, Some(token)) == Send(Payload(f))
  {
    assert Read(f, Age) != "" && Read(f, Weight) != "" && Read(f, Height) != "";
    assert Read(f, CholesterolLevel) != "" && Read(f, BloodPressure) != "";
    assert !StartsWith(Read(f, Gender), Placeholder) && !StartsWith(Read(f, SmokingStatus), Placeholder);
    assert !StartsWith(Read(f, AlcoholConsumption), Placeholder);
    assert !StartsWith(Read(f, FastingBloodSugar), Placeholder) && !StartsWith(Read(f, ChestPainType), Placeholder);
    assert !Incomplete(f);
  }

  /** `navigation.navigate` happens only when the reply has both `success`
      and `vitalsId`; the id is what is passed on. */
  function NextScreen(data: Value): (id: Option<Value>)
    ensures id.Some? <==> Truthy(Prop(data, "success")) && Truthy(Prop(data, "vitalsId"))
    ensures id.Some? ==> id.value == Prop(data, "vitalsId")
  {
    if Truthy(Prop(data, "success")) && Truthy(Prop(data, "vitalsId")) then Some(Prop(data, "vitalsId")) else None
  }

  /** The form state; `handleChange` replaces one input's value. */
  class UserDataForm {
    var fields: Form

    constructor ()
      ensures fields == InitialForm
    {
      fields := InitialForm;
    }

    method HandleChange(key: Field, value: string)
      modifies this
      ensures fields == With(old(fields), key, value)
    {
      fields := With(fields, key, value);
    }
  }

  /** The client accepts an age typed as "0", and the server, reading the
      body after its JSON trip, sees the number 0, which its presence check
      counts as missing. */
  lemma ZeroAgePassesClientNotServer(f: Form, token: string)
    requires f.age == "0" && !Incomplete(f) && token != ""
    ensures HandleNext(f, Some(token)).Send?
    ensures !Vitals.Complete(Json.Body(HandleNext(f, Some(token)).payload))
  {
    CompleteFormIsSent(f, token);
    ZeroDigit();
    ZeroText(f.age, 0);
    ZeroAgeMissing(f);
  }

  /** A payload whose age converts to 0 fails the server's check, both as
      sent and as the server parses it. */
  lemma ZeroAgeMissing(f: Form)
    requires NumberOf(f.age) == Number(Finite(0.0))
    ensures !Vitals.Complete(Payload(f))
    ensures !Vitals.Complete(Json.Body(Payload(f)))
  {
    PayloadAge(f);
    Vitals.ZeroCountsAsMissing(Payload(f), "age");
    assert Get(Json.Body(Payload(f)), "age") == Json.Trip(Number(Finite(0.0)));
    Vitals.ZeroCountsAsMissing(Json.Body(Payload(f)), "age");
  }

  lemma PayloadAge(f: Form)
    ensures Get(Payload(f), "age") == NumberOf(f.age)
  {
  }

  /** The text of the number 0 converts back to 0. */
  lemma ZeroText(s: string, n: nat)
    requires n == 0 && s == NatText(n)
    ensures NumberOf(s) == Number(Finite(0.0))
  {
    NatTextRoundTrip(n);
  }

  lemma ZeroDigit()
    ensures NatText(0) == "0"
  {
  }
}
