/**
 * The application form's validation, src/lib/validations/application.ts:
 * three per-step schemas (each a conjunction of per-field string checks),
 * the full schema as their merge, the table that assigns each field to the
 * step that validates it, and the static option tables.
 *
 * A string check is modelled as the list of messages it reports for a value
 * (zod reports every failing check of a field, in declaration order); the
 * email format test is an uninterpreted predicate `isEmail`, passed in.
 */
module ApplicationSchema {

  /** The keys of `ApplicationFormData`. */
  datatype Field =
    | FirstName | LastName | Email | Phone | DateOfBirth | Nationality
    | Program | Rhythm | Campus | CurrentLevel | CurrentSchool
    | MotivationLetter | DiscoveryChannel

  /** The answers, one string per field. */
  datatype FormData = FormData(
    firstName: string, lastName: string, email: string, phone: string, dateOfBirth: string, nationality: string,
    program: string, rhythm: string, campus: string, currentLevel: string, currentSchool: string,
    motivationLetter: string, discoveryChannel: string)

  function Value(d: FormData, f: Field): string {
    match f
    case FirstName => d.firstName
    case LastName => d.lastName
    case Email => d.email
    case Phone => d.phone
    case DateOfBirth => d.dateOfBirth
    case Nationality => d.nationality
    case Program => d.program
    case Rhythm => d.rhythm
    case Campus => d.campus
    case CurrentLevel => d.currentLevel
    case CurrentSchool => d.currentSchool
    case MotivationLetter => d.motivationLetter
    case DiscoveryChannel => d.discoveryChannel
  }

  /** One check of a `z.string()` chain: `.min(n, …)` or `.email(…)`; the messages are in `Message`. */
  datatype Check = MinLength(n: nat) | EmailFormat

  /** A `z.object` shape: the checks of each field it declares. */
  type Schema = map<Field, seq<Check>>

  predicate Passes(c: Check, value: string, isEmail: string -> bool) {
    match c
    case MinLength(n) => |value| >= n
    case EmailFormat => isEmail(value)
  }

  /** The checks a value fails, in declaration order (zod reports every failing check of a string). */
  function Failing(checks: seq<Check>, value: string, isEmail: string -> bool): (r: seq<Check>)
    ensures r == [] <==> forall i :: 0 <= i < |checks| ==> Passes(checks[i], value, isEmail)
  {
    if |checks| == 0 then []
    else
      var rest := Failing(checks[1..], value, isEmail);
      assert forall i :: 1 <= i < |checks| ==> checks[i] == checks[1..][i - 1];
      (if Passes(checks[0], value, isEmail) then [] else [checks[0]]) + rest
  }

  /** Only declared checks the value fails are reported, and every one of those is. */
  lemma {:induction false} FailingMembers(checks: seq<Check>, value: string, isEmail: string -> bool)
    ensures forall c :: c in Failing(checks, value, isEmail) <==> c in checks && !Passes(c, value, isEmail)
  {
    if |checks| > 0 {
      FailingMembers(checks[1..], value, isEmail);
      assert checks == [checks[0]] + checks[1..];
    }
  }

  /** The schema accepts the data when no declared field fails a check. */
  predicate Accepts(schema: Schema, d: FormData, isEmail: string -> bool) {
    forall f :: f in schema ==> Failing(schema[f], Value(d, f), isEmail) == []
  }

  /** A schema accepts exactly when every check every declared field carries passes. */
  lemma AcceptsAllChecks(schema: Schema, d: FormData, isEmail: string -> bool)
    ensures Accepts(schema, d, isEmail) <==>
      forall f, i :: f in schema && 0 <= i < |schema[f]| ==> Passes(schema[f][i], Value(d, f), isEmail)
  {
  }

  /** The messages of a field's failing checks. */
  function Messages(f: Field, failed: seq<Check>): (r: seq<string>)
    ensures |r| == |failed|
    ensures forall i :: 0 <= i < |failed| ==> r[i] == Message(f, failed[i])
  {
    if |failed| == 0 then [] else [Message(f, failed[0])] + Messages(f, failed[1..])
  }

  /** The field-to-messages map of a failed parse: exactly the failing fields appear. */
  function Errors(schema: Schema, d: FormData, isEmail: string -> bool): (e: map<Field, seq<string>>)
    ensures forall f :: f in e <==> f in schema && Failing(schema[f], Value(d, f), isEmail) != []
    ensures forall f :: f in e ==> e[f] == Messages(f, Failing(schema[f], Value(d, f), isEmail))
    ensures Accepts(schema, d, isEmail) <==> e == map[]
  {
    var e := map f | f in schema && Failing(schema[f], Value(d, f), isEmail) != [] :: Messages(f, Failing(schema[f], Value(d, f), isEmail));
    assert !Accepts(schema, d, isEmail) ==> e != map[] by {
      if !Accepts(schema, d, isEmail) {
        var f :| f in schema && Failing(schema[f], Value(d, f), isEmail) != [];
        assert f in e;
      }
    }
    e
  }

  /** The checks each field's `z.string()` chain declares. */
  function Checks(f: Field): seq<Check> {
    match f
    case Email => [MinLength(1), EmailFormat]
    case MotivationLetter => [MinLength(100)]
    case _ => [MinLength(1)]
  }

  /**
   * Every chain starts with a length check: `.min(100)` on the letter, `.min(1)`
   * elsewhere; only the email adds a second check, the format.
   */
  lemma ChecksDeclared(f: Field)
    ensures |Checks(f)| == (if f == Email then 2 else 1)
    ensures Checks(f)[0] == MinLength(if f == MotivationLetter then 100 else 1)
    ensures EmailFormat in Checks(f) <==> f == Email
  {
  }

  /** The message a field reports for a failed check. */
  function Message(f: Field, c: Check): (m: string)
    ensures m != ""
    ensures f == Email ==> (m == "Email invalide" <==> c.EmailFormat?)
  {
    match f
    case FirstName => "Le prénom est requis"
    case LastName => "Le nom est requis"
    case Email => if c.EmailFormat? then "Email invalide" else "L'email est requis"
    case Phone => "Le téléphone est requis"
    case DateOfBirth => "La date de naissance est requise"
    case Nationality => "La nationalité est requise"
    case Program => "Veuillez sélectionner un programme"
    case Rhythm => "Veuillez sélectionner un rythme"
    case Campus => "Veuillez sélectionner un campus"
    case CurrentLevel => "Le niveau actuel est requis"
    case CurrentSchool => "L'établissement actuel est requis"
    case MotivationLetter => "La lettre de motivation doit contenir au moins 100 caractères"
    case DiscoveryChannel => "Ce champ est requis"
  }

  /** The keys each step's `z.object` declares. */
  const Step1Keys: set<Field> := {FirstName, LastName, Email, Phone, DateOfBirth, Nationality}
  const Step2Keys: set<Field> := {Program, Rhythm, Campus, CurrentLevel, CurrentSchool}
  const Step3Keys: set<Field> := {MotivationLetter, DiscoveryChannel}

  const Step1Schema: Schema := map f | f in Step1Keys :: Checks(f)
  const Step2Schema: Schema := map f | f in Step2Keys :: Checks(f)
  const Step3Schema: Schema := map f | f in Step3Keys :: Checks(f)

  /** `a.merge(b)`: the union of the shapes, `b`'s checks winning on a shared key. */
  function Merge(a: Schema, b: Schema): (m: Schema)
    ensures m.Keys == a.Keys + b.Keys
    ensures forall f :: f in b ==> m[f] == b[f]
    ensures forall f :: f in a && f !in b ==> m[f] == a[f]
  {
    a + b
  }

  const ApplicationFullSchema: Schema := Merge(Merge(Step1Schema, Step2Schema), Step3Schema)

  /** `stepFields`: the fields the form validates before leaving each step. */
  const StepFields: map<int, seq<Field>> := map[
    1 := [FirstName, LastName, Email, Phone, DateOfBirth, Nationality],
    2 := [Program, Rhythm, Campus, CurrentLevel, CurrentSchool],
    3 := [MotivationLetter, DiscoveryChannel]]

  function StepSchema(step: int): Schema {
    if step == 1 then Step1Schema else if step == 2 then Step2Schema else if step == 3 then Step3Schema else map[]
  }

  const AllFields: set<Field> := {
    FirstName, LastName, Email, Phone, DateOfBirth, Nationality,
    Program, Rhythm, Campus, CurrentLevel, CurrentSchool,
    MotivationLetter, DiscoveryChannel}

  lemma AllFieldsComplete(f: Field)
    ensures f in AllFields
  {
  }

  // ── Step schemas ────────────────────────────────────────────────────

  /** A field with a single `.min(1)` check passes exactly when it is non-empty. */
  lemma RequiredFieldAccepts(f: Field, v: string, isEmail: string -> bool)
    requires f != Email && f != MotivationLetter
    ensures Failing(Checks(f), v, isEmail) == [] <==> v != ""
  {
    assert Checks(f) == [MinLength(1)];
  }

  /** The email field passes exactly when it is non-empty and well formed. */
  lemma EmailFieldAccepts(v: string, isEmail: string -> bool)
    ensures Failing(Checks(Email), v, isEmail) == [] <==> v != "" && isEmail(v)
  {
    var c := Checks(Email);
    assert Failing(c, v, isEmail) == [] <==> Passes(c[0], v, isEmail) && Passes(c[1], v, isEmail);
  }

  /** A shape whose fields all carry a single `.min(1)` check accepts exactly the data with those fields non-empty. */
  lemma RequiredFieldsAccept(schema: Schema, d: FormData, isEmail: string -> bool)
    requires Email !in schema && MotivationLetter !in schema
    requires forall f :: f in schema ==> schema[f] == Checks(f)
    ensures Accepts(schema, d, isEmail) <==> forall f :: f in schema ==> Value(d, f) != ""
  {
    forall f | f in schema
      ensures (Failing(schema[f], Value(d, f), isEmail) == []) <==> Value(d, f) != ""
    {
      RequiredFieldAccepts(f, Value(d, f), isEmail);
    }
  }

  /** A shape accepts exactly when one of its fields passes and the shape without that field accepts. */
  lemma AcceptsSplit(schema: Schema, g: Field, d: FormData, isEmail: string -> bool)
    requires g in schema
    ensures Accepts(schema, d, isEmail) <==>
      Accepts(schema - {g}, d, isEmail) && Failing(schema[g], Value(d, g), isEmail) == []
  {
    var rest := schema - {g};
    if Accepts(schema, d, isEmail) {
      forall f | f in rest ensures Failing(rest[f], Value(d, f), isEmail) == [] {
        assert f in schema && rest[f] == schema[f];
      }
    }
    if Accepts(rest, d, isEmail) && Failing(schema[g], Value(d, g), isEmail) == [] {
      forall f | f in schema ensures Failing(schema[f], Value(d, f), isEmail) == [] {
        if f != g {
          assert f in rest && rest[f] == schema[f];
        }
      }
    }
  }

  lemma Step1PlainAccepts(d: FormData, isEmail: string -> bool)
    ensures Accepts(Step1Schema - {Email}, d, isEmail) <==>
      d.firstName != "" && d.lastName != "" && d.phone != "" && d.dateOfBirth != "" && d.nationality != ""
  {
    var rest := Step1Schema - {Email};
    assert rest.Keys == {FirstName, LastName, Phone, DateOfBirth, Nationality};
    assert Value(d, FirstName) == d.firstName && Value(d, LastName) == d.lastName && Value(d, Phone) == d.phone;
    assert Value(d, DateOfBirth) == d.dateOfBirth && Value(d, Nationality) == d.nationality;
    RequiredFieldsAccept(rest, d, isEmail);
  }

  lemma Step1Accepts(d: FormData, isEmail: string -> bool)
    ensures Accepts(Step1Schema, d, isEmail) <==>
      && d.firstName != "" && d.lastName != "" && d.phone != ""
      && d.dateOfBirth != "" && d.nationality != ""
      && d.email != "" && isEmail(d.email)
  {
    assert Email in Step1Schema;
    AcceptsSplit(Step1Schema, Email, d, isEmail);
    Step1PlainAccepts(d, isEmail);
    EmailFieldAccepts(d.email, isEmail);
  }

  lemma Step2Accepts(d: FormData, isEmail: string -> bool)
    ensures Accepts(Step2Schema, d, isEmail) <==>
      d.program != "" && d.rhythm != "" && d.campus != "" && d.currentLevel != "" && d.currentSchool != ""
  {
    assert Value(d, Program) == d.program && Value(d, Rhythm) == d.rhythm && Value(d, Campus) == d.campus;
    assert Value(d, CurrentLevel) == d.currentLevel && Value(d, CurrentSchool) == d.currentSchool;
    RequiredFieldsAccept(Step2Schema, d, isEmail);
  }

  /**
   * The email's failing checks in declaration order: the required-field check
   * before the format check, so an empty invalid email reports
   * "L'email est requis" before "Email invalide".
   */
  lemma EmailFailingOrder(v: string, isEmail: string -> bool)
    ensures Failing(Checks(Email), v, isEmail) ==
      (if v == "" then [MinLength(1)] else []) + (if isEmail(v) then [] else [EmailFormat])
    ensures v == "" && !isEmail(v) ==> Messages(Email, Failing(Checks(Email), v, isEmail)) == ["L'email est requis", "Email invalide"]
  {
    var c := Checks(Email);
    assert c[1..][1..] == [];
    assert Failing(c[1..], v, isEmail) == (if isEmail(v) then [] else [EmailFormat]) + [];
  }

  /** The letter passes exactly when it has at least 100 characters. */
  lemma LetterFieldAccepts(v: string, isEmail: string -> bool)
    ensures Failing(Checks(MotivationLetter), v, isEmail) == [] <==> |v| >= 100
  {
    var c := Checks(MotivationLetter);
    assert Failing(c, v, isEmail) == [] <==> Passes(c[0], v, isEmail);
  }

  lemma Step3Accepts(d: FormData, isEmail: string -> bool)
    ensures Accepts(Step3Schema, d, isEmail) <==> |d.motivationLetter| >= 100 && d.discoveryChannel != ""
  {
    assert Value(d, MotivationLetter) == d.motivationLetter && Value(d, DiscoveryChannel) == d.discoveryChannel;
    var rest := Step3Schema - {MotivationLetter};
    assert MotivationLetter in Step3Schema && DiscoveryChannel in rest;
    assert rest[DiscoveryChannel] == Checks(DiscoveryChannel);
    assert (rest - {DiscoveryChannel}).Keys == {};
    AcceptsSplit(Step3Schema, MotivationLetter, d, isEmail);
    AcceptsSplit(rest, DiscoveryChannel, d, isEmail);
    RequiredFieldAccepts(DiscoveryChannel, d.discoveryChannel, isEmail);
    LetterFieldAccepts(d.motivationLetter, isEmail);
  }

  /** The letter's boundary: 99 characters fail, 100 pass. */
  lemma Step3LetterBoundary(d: FormData, isEmail: string -> bool)
    requires d.discoveryChannel != ""
    ensures |d.motivationLetter| == 99 ==> !Accepts(Step3Schema, d, isEmail)
    ensures |d.motivationLetter| == 100 ==> Accepts(Step3Schema, d, isEmail)
  {
    Step3Accepts(d, isEmail);
  }

  // ── Merge and the full schema ───────────────────────────────────────

  /** Merging shapes with disjoint keys accepts exactly what both accept. */
  lemma MergeAccepts(a: Schema, b: Schema, d: FormData, isEmail: string -> bool)
    requires a.Keys !! b.Keys
    ensures Accepts(Merge(a, b), d, isEmail) <==> Accepts(a, d, isEmail) && Accepts(b, d, isEmail)
  {
    var m := Merge(a, b);
    if Accepts(a, d, isEmail) && Accepts(b, d, isEmail) {
      forall f | f in m
        ensures Failing(m[f], Value(d, f), isEmail) == []
      {
        if f in b { assert m[f] == b[f]; }
        else { assert m[f] == a[f]; }
      }
    }
    if Accepts(m, d, isEmail) {
      forall f | f in a
        ensures Failing(a[f], Value(d, f), isEmail) == []
      {
        assert f !in b && m[f] == a[f];
      }
      forall f | f in b
        ensures Failing(b[f], Value(d, f), isEmail) == []
      {
        assert m[f] == b[f];
      }
    }
  }

  /** The merged shapes are pairwise disjoint, so no step's check is overridden. */
  lemma StepSchemasDisjoint()
    ensures Step1Schema.Keys !! Step2Schema.Keys
    ensures Step1Schema.Keys !! Step3Schema.Keys && Step2Schema.Keys !! Step3Schema.Keys
    ensures (Step1Schema.Keys + Step2Schema.Keys) !! Step3Schema.Keys
  {
  }

  /** `applicationSchema` accepts exactly when every step schema does. */
  lemma FullSchemaAccepts(d: FormData, isEmail: string -> bool)
    ensures Accepts(ApplicationFullSchema, d, isEmail) <==>
      Accepts(Step1Schema, d, isEmail) && Accepts(Step2Schema, d, isEmail) && Accepts(Step3Schema, d, isEmail)
  {
    StepSchemasDisjoint();
    MergeAccepts(Step1Schema, Step2Schema, d, isEmail);
    MergeAccepts(Merge(Step1Schema, Step2Schema), Step3Schema, d, isEmail);
  }

  /** The full schema declares every field of the form. */
  lemma FullSchemaKeys()
    ensures ApplicationFullSchema.Keys == AllFields
  {
  }

  // ── The step table ──────────────────────────────────────────────────

  function FieldSet(fields: seq<Field>): set<Field> {
    set f | f in fields
  }

  predicate NoDuplicates(fields: seq<Field>) {
    forall i, j :: 0 <= i < j < |fields| ==> fields[i] != fields[j]
  }

  /** `stepFields` has entries for steps 1, 2 and 3 only, each listing its schema's keys once. */
  lemma StepFieldsMatchSchemas()
    ensures StepFields.Keys == {1, 2, 3}
    ensures forall k :: k in StepFields ==> FieldSet(StepFields[k]) == StepSchema(k).Keys
    ensures forall k :: k in StepFields ==> NoDuplicates(StepFields[k])
  {
    forall f: Field
      ensures (f in FieldSet(StepFields[1]) <==> f in Step1Schema)
      ensures (f in FieldSet(StepFields[2]) <==> f in Step2Schema)
      ensures (f in FieldSet(StepFields[3]) <==> f in Step3Schema)
    {
    }
  }

  /** The three lists are pairwise disjoint and together name every field of the form. */
  lemma StepFieldsCoverForm()
    ensures FieldSet(StepFields[1]) + FieldSet(StepFields[2]) + FieldSet(StepFields[3]) == AllFields
    ensures FieldSet(StepFields[1]) !! FieldSet(StepFields[2])
    ensures FieldSet(StepFields[1]) !! FieldSet(StepFields[3]) && FieldSet(StepFields[2]) !! FieldSet(StepFields[3])
  {
    StepFieldsMatchSchemas();
    assert StepSchema(1) == Step1Schema && StepSchema(2) == Step2Schema && StepSchema(3) == Step3Schema;
    StepSchemasDisjoint();
    FullSchemaKeys();
  }

  /** The step whose schema declares a field. */
  function StepOf(f: Field): (k: int)
    ensures k in StepFields && f in FieldSet(StepFields[k])
  {
    match f
    case FirstName | LastName | Email | Phone | DateOfBirth | Nationality =>
      assert f in StepFields[1]; 1
    case Program | Rhythm | Campus | CurrentLevel | CurrentSchool =>
      assert f in StepFields[2]; 2
    case MotivationLetter | DiscoveryChannel =>
      assert f in StepFields[3]; 3
  }

  /** Every field belongs to exactly one step. */
  lemma StepFieldsPartition(f: Field, k: int)
    requires k in StepFields && f in FieldSet(StepFields[k])
    ensures k == StepOf(f)
  {
    assert k == 1 || k == 2 || k == 3;
    assert f in StepFields[k];
  }

  /** A shape's verdict and messages depend only on the fields it declares. */
  lemma SchemaReadsOnlyItsKeys(schema: Schema, d: FormData, d': FormData, isEmail: string -> bool)
    requires forall f :: f in schema ==> Value(d, f) == Value(d', f)
    ensures Accepts(schema, d, isEmail) <==> Accepts(schema, d', isEmail)
    ensures Errors(schema, d, isEmail) == Errors(schema, d', isEmail)
  {
    var e, e' := Errors(schema, d, isEmail), Errors(schema, d', isEmail);
    assert e.Keys == e'.Keys;
    assert e == e';
  }

  /** Validating one step reads only that step's fields: answers elsewhere cannot change its verdict. */
  lemma StepReadsOnlyItsFields(k: int, d: FormData, d': FormData, isEmail: string -> bool)
    requires k in StepFields
    requires forall f :: f in FieldSet(StepFields[k]) ==> Value(d, f) == Value(d', f)
    ensures Accepts(StepSchema(k), d, isEmail) <==> Accepts(StepSchema(k), d', isEmail)
    ensures Errors(StepSchema(k), d, isEmail) == Errors(StepSchema(k), d', isEmail)
  {
    assert FieldSet(StepFields[k]) == StepSchema(k).Keys by {
      StepFieldsMatchSchemas();
    }
    SchemaReadsOnlyItsKeys(StepSchema(k), d, d', isEmail);
  }

  // ── Option tables ───────────────────────────────────────────────────

  /** An entry `{ value, label }`; `label` is a Dafny keyword, hence `labelText`. */
  datatype SelectOption = SelectOption(value: string, labelText: string)

  const CampusOptions: seq<SelectOption> := [
    SelectOption("Paris", "Paris"),
    SelectOption("Lyon", "Lyon"),
    SelectOption("Orléans", "Orléans")]

  const CurrentLevelOptions: seq<SelectOption> := [
    SelectOption("Bac", "Bac"),
    SelectOption("Bac+1", "Bac+1"),
    SelectOption("Bac+2", "Bac+2"),
    SelectOption("Bac+3", "Bac+3"),
    SelectOption("Bac+4", "Bac+4"),
    SelectOption("Bac+5 et plus", "Bac+5 et plus")]

  const DiscoveryChannelOptions: seq<SelectOption> := [
    SelectOption("Presse", "Presse"),
    SelectOption("Internet", "Internet"),
    SelectOption("Emailing/Courrier postal", "Emailing/Courrier postal"),
    SelectOption("Portes Ouvertes", "Portes Ouvertes"),
    SelectOption("Salons", "Salons"),
    SelectOption("Ancien élève/Étudiant", "Ancien élève/Étudiant"),
    SelectOption("Autre", "Autre")]

  const BachelorPrograms: seq<string> := [
    "Année 1 Chef de projet digitaux",
    "Année 2 Chef de projet digitaux",
    "Année 3 Application Development & Cybersecurity",
    "Année 3 Interactive Design",
    "Année 3 Digital Marketing & Business",
    "Année 3 Management Innovation et Gestion de projets numériques"]

  const MasterPrograms: seq<string> := [
    "Tech Lead & Cybersecurity",
    "Mastère Apps & Cybersecurity",
    "Mastère Architecte Solutions",
    "Mastère Data IA & Business Intelligence",
    "Mastère Marketing & Stratégie",
    "Mastère UX & Product Design",
    "Mastère Direction Artistique",
    "Mastère Strategy & Entrepreneurship Majeure Entrepreneurship & Innovation",
    "Mastère Strategy & Entrepreneurship Majeure International Strategy & Sustainability"]

  predicate ValueIsLabel(options: seq<SelectOption>) {
    forall i :: 0 <= i < |options| ==> options[i].value == options[i].labelText
  }

  predicate DistinctValues(options: seq<SelectOption>) {
    forall i, j :: 0 <= i < j < |options| ==> options[i].value != options[j].value
  }

  predicate DistinctStrings(s: seq<string>) {
    forall i, j :: 0 <= i < j < |s| ==> s[i] != s[j]
  }

  /** Each option shows its own value, and no table offers the same value twice. */
  lemma CampusOptionsWellFormed()
    ensures ValueIsLabel(CampusOptions) && DistinctValues(CampusOptions)
  {
  }

  lemma CurrentLevelOptionsWellFormed()
    ensures ValueIsLabel(CurrentLevelOptions) && DistinctValues(CurrentLevelOptions)
  {
  }

  lemma DiscoveryChannelOptionsWellFormed()
    ensures ValueIsLabel(DiscoveryChannelOptions) && DistinctValues(DiscoveryChannelOptions)
  {
  }

  /** No programme is listed twice within its level. */
  lemma ProgramListsDistinct()
    ensures DistinctStrings(BachelorPrograms) && DistinctStrings(MasterPrograms)
  {
  }
}
