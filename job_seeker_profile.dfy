/** A job seeker's profile form: the profile loaded with blank defaults,
    field edits (the skills text is parsed into a list on every edit and
    shown back joined with ', '), the resume file picker with its size
    limit, profile save and resume upload. */
module JobSeekerProfile {
  import opened Wrappers
  import opened JsText
  import opened JsValue
  import opened Backend
  import opened Skills

  /** The profile form's fields. */
  const FormKeys: set<string> := {"fullName", "phone", "location", "skills", "experience", "education", "bio"}

  /** The text fields, loaded as `profile.f || ''`. */
  const TextKeys: set<string> := {"fullName", "phone", "location", "experience", "education", "bio"}

  /** The empty form: blank texts and no skills. */
  const Initial: Obj := map k | k in FormKeys :: if k == "skills" then JArr([]) else JStr("")

  /** The largest resume accepted: 5 MiB. */
  const MaxResumeBytes: int := 5 * 1024 * 1024

  /** A file chosen in the picker. */
  datatype File = File(name: string, size: int)

  /** The form filled from a fetched profile: each text field keeps a
      truthy stored value and is blank otherwise; skills keep a truthy
      stored value and are empty otherwise. */
  function Defaults(profile: Obj): (form: Obj)
    ensures forall k :: k in TextKeys ==> k in form && form[k] == Or(Get(profile, k), JStr(""))
    ensures Get(form, "skills") == Or(Get(profile, "skills"), JArr([]))
  {
    (map k | k in TextKeys :: Or(Get(profile, k), JStr(""))) + map["skills" := Or(Get(profile, "skills"), JArr([]))]
  }

  /** The skills textarea: the list joined with ', ', or blank when the
      field holds no list. */
  function SkillsShown(form: Obj): string {
    if Get(form, "skills").JArr? then Show(Get(form, "skills").items) else ""
  }

  /** `handleChange`: 'skills' stores the parsed list, any other field the
      raw text. */
  function Changed(form: Obj, name: string, value: string): (r: Obj)
    ensures name in r
    ensures name == "skills" ==> r[name] == JArr(Parse(value))
    ensures name != "skills" ==> r[name] == JStr(value)
    ensures forall k :: k in form && k != name ==> k in r && r[k] == form[k]
    ensures forall k :: k in r ==> k in form || k == name
  {
    form[name := if name == "skills" then JArr(Parse(value)) else JStr(value)]
  }

  /** Re-submitting what the textarea shows keeps the list: parsing is
      idempotent through the display join. */
  lemma EditShownSkills(form: Obj, value: string)
    ensures var f := Changed(form, "skills", value);
      Changed(f, "skills", SkillsShown(f)) == f
  {
    var skills := Parse(value);
    var f := form["skills" := JArr(skills)];
    SkillsStored(form, value);
    SkillsShownOf(form, skills);
    ParseShowParse(value);
    SkillsStored(f, Show(skills));
    StoreTwice(form, "skills", JArr(skills));
  }

  lemma SkillsStored(form: Obj, value: string)
    ensures Changed(form, "skills", value) == form["skills" := JArr(Parse(value))]
  {
  }

  lemma SkillsShownOf(form: Obj, skills: seq<string>)
    ensures SkillsShown(form["skills" := JArr(skills)]) == Show(skills)
  {
  }

  lemma StoreTwice(form: Obj, k: string, v: JsVal)
    ensures form[k := v][k := v] == form[k := v]
  {
  }

  // ---------------------------------------------------------------- typing skills

  /** What the skills list becomes when the user types character `c` at
      the end of the textarea: the shown text plus `c`, parsed again. */
  function AfterKeystroke(skills: seq<string>, c: char): seq<string> {
    Parse(Show(skills) + [c])
  }

  /** A comma typed after the shown skills disappears at once: the list,
      and so the text shown, stay as they were. */
  lemma CommaIsSwallowed(skills: seq<string>)
    requires AllWellFormed(skills)
    ensures AfterKeystroke(skills, ',') == skills
  {
    SplitSnoc(Show(skills), ',');
    CleanSnocBlank(Split(Show(skills), ','));
    ParseShow(skills);
  }

  /** So a second skill cannot be typed: after one skill, typing ',' and
      then a letter extends the first skill instead of starting another. */
  lemma SecondSkillCannotBeTyped(first: string, c: char)
    requires WellFormed(first) && !IsWhite(c) && c != ','
    ensures AfterKeystroke(AfterKeystroke([first], ','), c) == [first + [c]]
  {
    CommaIsSwallowed([first]);
    assert Show([first]) == first;
    assert WellFormed(first + [c]) by {
      assert (first + [c])[0] == first[0];
    }
    ParseShow([first + [c]]);
    assert Show([first + [c]]) == first + [c];
  }

  /** The intended behaviour: the textarea keeps the raw text the user
      types, one character at a time, and the list is its parse. */
  function TypeRaw(text: string, keys: string): (r: string)
    decreases |keys|
  {
    if |keys| == 0 then text else TypeRaw(text + [keys[0]], keys[1..])
  }

  /** `TypeRaw` appends what is typed. */
  lemma {:induction false} TypeRawAppends(text: string, keys: string)
    ensures TypeRaw(text, keys) == text + keys
    decreases |keys|
  {
    if |keys| > 0 {
      TypeRawAppends(text + [keys[0]], keys[1..]);
      assert text + [keys[0]] + keys[1..] == text + keys;
    } else {
      assert text + keys == text;
    }
  }

  /** Typed one character at a time, the raw text is everything typed, so
      typing the display form of any skills list yields that list. */
  lemma RawTypingKeepsEverySkill(skills: seq<string>)
    requires AllWellFormed(skills)
    ensures Parse(TypeRaw("", Show(skills))) == skills
  {
    TypeRawAppends("", Show(skills));
    assert "" + Show(skills) == Show(skills);
    ParseShow(skills);
  }

  // ---------------------------------------------------------------- the page

  class Page {
    var form: Obj
    var resume: Option<File>
    var currentResume: JsVal
    var loading: bool
    var saving: bool
    var uploading: bool

    constructor()
      ensures form == Initial && resume == None && currentResume == JNull
      ensures loading && !saving && !uploading
    {
      form := Initial;
      resume := None;
      currentResume := JNull;
      loading := true;
      saving := false;
      uploading := false;
    }

    /** `fetchProfile` completes: success fills the form with defaults and
        records the stored resume; any failure leaves the form; loading
        ends either way, and only a failure other than 404 (no profile
        yet) is reported. */
    method Load(reply: Call<Obj>) returns (report: Option<string>)
      modifies this
      ensures reply.Resolved? ==> form == Defaults(reply.value) && report == None
      ensures reply.Resolved? ==> currentResume == Get(reply.value, "resumePath")
      ensures reply.Rejected? ==> form == old(form) && currentResume == old(currentResume)
      ensures reply.Rejected? ==>
        report == if reply.failure.status == Some(404) then None else Some("Failed to load profile")
      ensures !loading && resume == old(resume) && saving == old(saving) && uploading == old(uploading)
    {
      report := None;
      if reply.Resolved? {
        form := Defaults(reply.value);
        currentResume := Get(reply.value, "resumePath");
      } else if reply.failure.status != Some(404) {
        report := Some("Failed to load profile");
      }
      loading := false;
    }

    /** `handleChange`. */
    method HandleChange(name: string, value: string)
      modifies this
      ensures form == Changed(old(form), name, value)
      ensures resume == old(resume) && currentResume == old(currentResume)
      ensures loading == old(loading) && saving == old(saving) && uploading == old(uploading)
    {
      form := Changed(form, name, value);
    }

    /** `handleFileChange`: no file leaves the selection; a file over the
        limit is refused with a message and the selection kept; otherwise
        it becomes the selected resume. */
    method FileChange(file: Option<File>) returns (refused: Option<string>)
      modifies this
      ensures file.Some? && file.value.size <= MaxResumeBytes ==> resume == file && refused == None
      ensures file.Some? && file.value.size > MaxResumeBytes ==>
        resume == old(resume) && refused == Some("File size should be less than 5MB")
      ensures file.None? ==> resume == old(resume) && refused == None
      ensures form == old(form) && currentResume == old(currentResume)
      ensures loading == old(loading) && saving == old(saving) && uploading == old(uploading)
    {
      refused := None;
      if file.Some? {
        if file.value.size > MaxResumeBytes {
          refused := Some("File size should be less than 5MB");
          return;
        }
        resume := file;
      }
    }

    /** `handleSubmit`: the form as it is is sent; success reloads the
        profile; saving ends either way. */
    method Submit(ok: bool) returns (sent: Obj, reload: bool)
      modifies this
      ensures sent == form && reload == ok
      ensures form == old(form) && resume == old(resume) && currentResume == old(currentResume)
      ensures !saving && loading == old(loading) && uploading == old(uploading)
    {
      saving := true;
      sent := form;
      reload := ok;
      saving := false;
    }

    /** `handleResumeUpload`: with nothing selected, a message and no
        request; otherwise the selected file is sent, and success clears
        the selection and reloads; uploading ends either way. */
    method Upload(ok: bool) returns (sent: Option<File>, refused: Option<string>, reload: bool)
      modifies this
      ensures old(resume).None? ==> sent == None && refused == Some("Please select a file first") && !reload
      ensures old(resume).Some? ==> sent == old(resume) && refused == None && reload == ok
      ensures resume == if old(resume).Some? && ok then None else old(resume)
      ensures form == old(form) && currentResume == old(currentResume)
      ensures uploading == (old(resume).None? && old(uploading))
      ensures loading == old(loading) && saving == old(saving)
    {
      if resume.None? {
        return None, Some("Please select a file first"), false;
      }
      uploading := true;
      sent, refused, reload := resume, None, ok;
      if ok {
        resume := None;
      }
      uploading := false;
    }
  }
}
