/** The profile file: one JSON object with the four profile fields. */
module UserConfigurationStorage {
  import opened Wrappers
  import opened Text
  import opened Json
  import opened Profile

  /** The object `write` builds; an absent birthday is stored as JSON null. `formatDate`
      stands for the ISO local-date formatter. */
  function ConfigurationDocument(c: UserConfiguration, formatDate: LocalDate -> string): JsonObject {
    [Field("name", JStr(c.name)),
     Field("birthday", if c.birthday.Some? then JStr(formatDate(c.birthday.value)) else JNull),
     Field("gender", JStr(c.gender.Name())),
     Field("diagnosis", JStr(c.diagnosis))]
  }

  /** `write`: the text stored in the file. */
  function Write(c: UserConfiguration, formatDate: LocalDate -> string): string {
    Encode(JObj(ConfigurationDocument(c, formatDate)))
  }

  /** The profile a parsed object holds: missing texts are empty, a missing or unknown gender
      is `Girl`, a null, missing or blank birthday is absent, and a birthday that does not
      parse fails the read. `parseDate` stands for the ISO local-date parser. */
  function ReadFields(json: JsonObject, parseDate: string -> Result<LocalDate, string>): (r: Result<UserConfiguration, string>)
    ensures r.Ok? ==> r.value.name == OptString(json, "name", "") &&
                      r.value.diagnosis == OptString(json, "diagnosis", "")
    ensures r.Ok? ==> (r.value.gender == Boy <==> OptString(json, "gender", "Girl") == "Boy")
    ensures IsNull(json, "birthday") ==> r.Ok? && r.value.birthday == None
    ensures !IsNull(json, "birthday") && IsBlank(OptString(json, "birthday", "")) ==>
      r.Ok? && r.value.birthday == None
    ensures !IsNull(json, "birthday") && !IsBlank(OptString(json, "birthday", "")) ==>
      (r.Ok? <==> parseDate(OptString(json, "birthday", "")).Ok?) &&
      (r.Ok? ==> r.value.birthday == Some(parseDate(OptString(json, "birthday", "")).value))
  {
    var name := OptString(json, "name", "");
    var diagnosis := OptString(json, "diagnosis", "");
    var genderValue := OptString(json, "gender", Girl.Name());
    var gender := GenderNamed(genderValue).GetOr(Girl);
    var birthday: Result<Option<LocalDate>, string> :=
      if IsNull(json, "birthday") then Ok(None)
      else
        var text := OptString(json, "birthday", "");
        if IsBlank(text) then Ok(None)
        else
          match parseDate(text)
          case Err(e) => Err(e)
          case Ok(d) => Ok(Some(d));
    match birthday
    case Err(e) => Err(e)
    case Ok(b) => Ok(UserConfiguration(name, b, gender, diagnosis))
  }

  /** `read`: `file` is the file's content, `None` when it does not exist; no file and a
      blank file both mean no profile yet. */
  function Read(file: Option<string>, parse: string -> Result<Json, string>,
                parseDate: string -> Result<LocalDate, string>): (r: Result<Option<UserConfiguration>, string>)
    ensures file.None? ==> r == Ok(None)
    ensures file.Some? && IsBlank(file.value) ==> r == Ok(None)
    ensures file.Some? && !IsBlank(file.value) ==> (r.Ok? ==> r.value.Some?)
  {
    if file.None? || IsBlank(file.value) then Ok(None)
    else
      match ParseObject(file.value, parse)
      case Err(e) => Err(e)
      case Ok(json) =>
        match ReadFields(json, parseDate)
        case Err(e) => Err(e)
        case Ok(c) => Ok(Some(c))
  }

  /** An object holding none of the fields reads as the default profile. */
  lemma EmptyObjectIsDefault(parseDate: string -> Result<LocalDate, string>)
    ensures ReadFields([], parseDate) == Ok(DefaultConfiguration)
  {
  }

  /** A gender name other than the two constants' falls back to `Girl`. */
  lemma UnknownGenderIsGirl(json: JsonObject, parseDate: string -> Result<LocalDate, string>)
    requires OptString(json, "gender", "Girl") != "Boy"
    requires ReadFields(json, parseDate).Ok?
    ensures ReadFields(json, parseDate).value.gender == Girl
  {
  }

  /** The fields `write` stores are read back as they were written. */
  lemma ReadFieldsOfDocument(c: UserConfiguration, formatDate: LocalDate -> string,
                             parseDate: string -> Result<LocalDate, string>)
    requires c.birthday.Some? ==>
      !IsBlank(formatDate(c.birthday.value)) && parseDate(formatDate(c.birthday.value)) == Ok(c.birthday.value)
    ensures ReadFields(ConfigurationDocument(c, formatDate), parseDate) == Ok(c)
  {
    var f := ConfigurationDocument(c, formatDate);
    assert f[0].name == "name" && f[1].name == "birthday" && f[2].name == "gender" && f[3].name == "diagnosis";
    OptAt(f, 0, "name");
    OptAt(f, 1, "birthday");
    forall j | 0 <= j < 2 ensures f[j].name != "gender" {
      assert |f[j].name| != 6;
    }
    OptAt(f, 2, "gender");
    forall j | 0 <= j < 3 ensures f[j].name != "diagnosis" {
      assert |f[j].name| < 9;
    }
    OptAt(f, 3, "diagnosis");
    GenderNameRoundTrip(c.gender);
    assert OptString(f, "gender", Girl.Name()) == c.gender.Name();
    assert !IsNull(f, "birthday") ==> OptString(f, "birthday", "") == formatDate(c.birthday.value);
  }

  /** Writing a profile and reading the file back gives the same profile, provided the JSON
      text and the birthday parse back to what was written. */
  lemma ReadAfterWrite(c: UserConfiguration, formatDate: LocalDate -> string,
                       parse: string -> Result<Json, string>,
                       parseDate: string -> Result<LocalDate, string>)
    requires parse(Write(c, formatDate)) == Ok(JObj(ConfigurationDocument(c, formatDate)))
    requires c.birthday.Some? ==>
      !IsBlank(formatDate(c.birthday.value)) && parseDate(formatDate(c.birthday.value)) == Ok(c.birthday.value)
    ensures Read(Some(Write(c, formatDate)), parse, parseDate) == Ok(Some(c))
  {
    EncodeNotBlank(JObj(ConfigurationDocument(c, formatDate)));
    ReadFieldsOfDocument(c, formatDate, parseDate);
  }
}
