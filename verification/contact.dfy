/**
  The contact form of `Contact.tsx`: the validation schema (trim, then the
  length and shape checks, collecting every failed check), the per-field
  error map built from those failures, the body of the request that is sent,
  and the form's state machine over `formData`, `errors` and `isSubmitting`.

  The email-shape test belongs to the validation library and is a parameter
  here (`shape`). The network is an input: the submit handler is split at its
  `await` into `Begin` (validation, captcha check, request) and `Finish`
  (what the response or the exception does to the form).
*/
module Contact {
  import opened Wrappers

  // ---------------------------------------------------------------------------
  // Form data
  // ---------------------------------------------------------------------------

  /** The three inputs of the form; each is named by its `name` attribute. */
  datatype Field = Name | Email | Message

  datatype FormData = FormData(name: string, email: string, message: string)

  /** The initial and the cleared form. */
  const EmptyForm: FormData := FormData("", "", "")

  /** The `name` attribute of a field's input, which is also its key in the request. */
  function Key(f: Field): (k: string)
    ensures k != ""
  {
    match f
    case Name => "name"
    case Email => "email"
    case Message => "message"
  }

  function Get(fd: FormData, f: Field): string
  {
    match f
    case Name => fd.name
    case Email => fd.email
    case Message => fd.message
  }

  /** `{ ...prev, [name]: value }`: only the named field changes. */
  function With(fd: FormData, f: Field, value: string): (r: FormData)
    ensures Get(r, f) == value
    ensures forall g: Field | g != f :: Get(r, g) == Get(fd, g)
  {
    match f
    case Name => fd.(name := value)
    case Email => fd.(email := value)
    case Message => fd.(message := value)
  }

  // ---------------------------------------------------------------------------
  // String measures used by the schema
  // ---------------------------------------------------------------------------

  /**
    The characters `String.prototype.trim` removes: the ECMAScript
    WhiteSpace and LineTerminator code points.
  */
  predicate IsJsWhitespace(c: char)
  {
    || c == '\t' || c == '\n' || c == '\U{000B}' || c == '\U{000C}' || c == '\r' || c == ' '
    || c == '\U{00A0}' || c == '\U{1680}' || ('\U{2000}' <= c <= '\U{200A}')
    || c == '\U{2028}' || c == '\U{2029}' || c == '\U{202F}' || c == '\U{205F}'
    || c == '\U{3000}' || c == '\U{FEFF}'
  }

  function TrimStart(s: string): string
  {
    if s != [] && IsJsWhitespace(s[0]) then TrimStart(s[1..]) else s
  }

  function TrimEnd(s: string): string
  {
    if s != [] && IsJsWhitespace(s[|s| - 1]) then TrimEnd(s[..|s| - 1]) else s
  }

  /** `TrimStart` drops a whitespace prefix and stops at the first other character. */
  lemma {:induction false} TrimStartDropsLeadingWhitespace(s: string)
    ensures |TrimStart(s)| <= |s| && TrimStart(s) == s[|s| - |TrimStart(s)|..]
    ensures forall i | 0 <= i < |s| - |TrimStart(s)| :: IsJsWhitespace(s[i])
    ensures TrimStart(s) == [] || !IsJsWhitespace(TrimStart(s)[0])
  {
    if s != [] && IsJsWhitespace(s[0]) {
      TrimStartDropsLeadingWhitespace(s[1..]);
    }
  }

  /** `TrimEnd` drops a whitespace suffix and stops at the last other character. */
  lemma {:induction false} TrimEndDropsTrailingWhitespace(s: string)
    ensures |TrimEnd(s)| <= |s| && TrimEnd(s) == s[..|TrimEnd(s)|]
    ensures forall i | |TrimEnd(s)| <= i < |s| :: IsJsWhitespace(s[i])
    ensures TrimEnd(s) == [] || !IsJsWhitespace(TrimEnd(s)[|TrimEnd(s)| - 1])
  {
    if s != [] && IsJsWhitespace(s[|s| - 1]) {
      TrimEndDropsTrailingWhitespace(s[..|s| - 1]);
    }
  }

  /** `String.prototype.trim`, as the schema's `.trim()` applies it. */
  function Trim(s: string): string
  {
    TrimEnd(TrimStart(s))
  }

  /**
    `Trim(s)` is the slice of `s` left between its leading and its trailing
    run of whitespace: whatever slice has those two properties is it.
  */
  lemma TrimIsTheInnerSlice(s: string, a: int, b: int)
    requires 0 <= a <= b <= |s|
    requires forall i | 0 <= i < a :: IsJsWhitespace(s[i])
    requires forall i | b <= i < |s| :: IsJsWhitespace(s[i])
    requires a == b || (!IsJsWhitespace(s[a]) && !IsJsWhitespace(s[b - 1]))
    ensures Trim(s) == s[a..b]
  {
    var t := TrimStart(s);
    TrimStartDropsLeadingWhitespace(s);
    var start := |s| - |t|;
    if a == b {
      // Every character is whitespace.
      forall i | 0 <= i < |s| ensures IsJsWhitespace(s[i]) {
        if i >= a { assert b <= i; }
      }
      assert t == [];
    } else {
      assert start <= a;
      assert t[0] == s[start];
      assert start == a;
      assert t == s[a..];
      var r := TrimEnd(t);
      TrimEndDropsTrailingWhitespace(t);
      assert t[b - 1 - a] == s[b - 1];
      assert a + |r| >= b;
      assert r[|r| - 1] == s[a + |r| - 1];
    }
  }

  /** Trimming twice is trimming once. */
  lemma TrimIdempotent(s: string)
    ensures Trim(Trim(s)) == Trim(s)
  {
    var u := TrimStart(s);
    var t := Trim(s);
    TrimStartDropsLeadingWhitespace(s);
    TrimEndDropsTrailingWhitespace(u);
    if t != [] {
      assert t[0] == u[0];
    }
    TrimIsTheInnerSlice(t, 0, |t|);
    assert t[0..|t|] == t;
  }

  /**
    `String.prototype.length`: the number of UTF-16 code units, two for a
    character beyond the Basic Multilingual Plane.
  */
  function Utf16Length(s: string): (n: nat)
    ensures |s| <= n <= 2 * |s|
    decreases |s|
  {
    if s == [] then 0
    else Utf16Length(s[..|s| - 1]) + (if s[|s| - 1] as int > 0xFFFF then 2 else 1)
  }

  /** Within the Basic Multilingual Plane the length is the number of characters. */
  lemma {:induction false} Utf16LengthOfBmp(s: string)
    requires forall i | 0 <= i < |s| :: s[i] as int <= 0xFFFF
    ensures Utf16Length(s) == |s|
    decreases |s|
  {
    if s != [] {
      Utf16LengthOfBmp(s[..|s| - 1]);
    }
  }

  // ---------------------------------------------------------------------------
  // The schema
  // ---------------------------------------------------------------------------

  /** One failed check of the schema: the field it is about and its message. */
  datatype Issue = Issue(path: Field, message: string)

  predicate NameValid(value: string)
  {
    1 <= Utf16Length(Trim(value)) <= 100
  }

  predicate EmailValid(value: string, shape: string -> bool)
  {
    shape(Trim(value)) && Utf16Length(Trim(value)) <= 255
  }

  predicate MessageValid(value: string)
  {
    1 <= Utf16Length(Trim(value)) <= 1000
  }

  /** The `name` rule: trim, then at least 1 and at most 100 code units. */
  function NameIssues(value: string): (issues: seq<Issue>)
    ensures issues == [] <==> NameValid(value)
    ensures forall i | 0 <= i < |issues| :: issues[i].path == Name
  {
    var n := Utf16Length(Trim(value));
    (if n < 1 then [Issue(Name, "Name is required")] else [])
    + (if n > 100 then [Issue(Name, "Name must be less than 100 characters")] else [])
  }

  /** The `email` rule: trim, then the shape check and at most 255 code units, both reported. */
  function EmailIssues(value: string, shape: string -> bool): (issues: seq<Issue>)
    ensures issues == [] <==> EmailValid(value, shape)
    ensures forall i | 0 <= i < |issues| :: issues[i].path == Email
  {
    var t := Trim(value);
    (if !shape(t) then [Issue(Email, "Invalid email address")] else [])
    + (if Utf16Length(t) > 255 then [Issue(Email, "Email must be less than 255 characters")] else [])
  }

  /** The `message` rule: trim, then at least 1 and at most 1000 code units. */
  function MessageIssues(value: string): (issues: seq<Issue>)
    ensures issues == [] <==> MessageValid(value)
    ensures forall i | 0 <= i < |issues| :: issues[i].path == Message
  {
    var n := Utf16Length(Trim(value));
    (if n < 1 then [Issue(Message, "Message is required")] else [])
    + (if n > 1000 then [Issue(Message, "Message must be less than 1000 characters")] else [])
  }

  /** `contactSchema.safeParse(formData)`: the issues of the three fields, in field order. */
  function Issues(fd: FormData, shape: string -> bool): (issues: seq<Issue>)
    ensures issues == [] <==> NameValid(fd.name) && EmailValid(fd.email, shape) && MessageValid(fd.message)
  {
    NameIssues(fd.name) + EmailIssues(fd.email, shape) + MessageIssues(fd.message)
  }

  // ---------------------------------------------------------------------------
  // Field errors
  // ---------------------------------------------------------------------------

  /**
    The error map the issues leave behind when written one after another.
    The `if (err.path[0])` guard never skips an issue: every path is a field,
    whose key `Key(path)` is a non-empty, hence truthy, string.
  */
  function ErrorsOf(issues: seq<Issue>): (errors: map<Field, string>)
    ensures errors.Keys == set k | 0 <= k < |issues| :: issues[k].path
    decreases |issues|
  {
    if issues == [] then map[]
    else
      var init := issues[..|issues| - 1];
      var last := issues[|issues| - 1];
      var e := ErrorsOf(init);
      assert forall k | 0 <= k < |init| :: init[k] == issues[k];
      e[last.path := last.message]
  }

  lemma ErrorsOfOne(issue: Issue)
    ensures ErrorsOf([issue]) == map[issue.path := issue.message]
  {
    assert [issue][..0] == [];
  }

  /** For a field with several issues, the message of the last one is the one kept. */
  lemma {:induction false} LastMessageWins(issues: seq<Issue>, k: int)
    requires 0 <= k < |issues|
    requires forall j | k < j < |issues| :: issues[j].path != issues[k].path
    ensures issues[k].path in ErrorsOf(issues)
    ensures ErrorsOf(issues)[issues[k].path] == issues[k].message
    decreases |issues|
  {
    if k < |issues| - 1 {
      var init := issues[..|issues| - 1];
      assert init[k] == issues[k];
      forall j | k < j < |init| ensures init[j].path != init[k].path {
        assert init[j] == issues[j];
      }
      LastMessageWins(init, k);
    }
  }

  /** The `forEach` over the issues that fills `fieldErrors`. */
  method CollectFieldErrors(issues: seq<Issue>) returns (fieldErrors: map<Field, string>)
    ensures fieldErrors == ErrorsOf(issues)
  {
    fieldErrors := map[];
    for k := 0 to |issues|
      invariant fieldErrors == ErrorsOf(issues[..k])
    {
      assert issues[..k + 1][..k] == issues[..k];
      fieldErrors := fieldErrors[issues[k].path := issues[k].message];
    }
    assert issues[..|issues|] == issues;
  }

  // ---------------------------------------------------------------------------
  // Request and responses
  // ---------------------------------------------------------------------------

  /** The form-relay access key sent with every request. */
  const AccessKey: string := "666d3304-971f-4b09-995c-2439231d25ba"

  /** The multipart body: the raw (untrimmed) inputs, the access key and the captcha token. */
  function RequestBody(fd: FormData, token: string): seq<(string, string)>
  {
    [(Key(Name), fd.name), (Key(Email), fd.email), (Key(Message), fd.message),
     ("access_key", AccessKey), ("h-captcha-response", token)]
  }

  /** The value of the first part named `key`, as `FormData.get` returns it. */
  function Lookup(body: seq<(string, string)>, key: string): (v: Option<string>)
    ensures v.None? ==> forall i | 0 <= i < |body| :: body[i].0 != key
  {
    if body == [] then None
    else if body[0].0 == key then Some(body[0].1)
    else
      var v := Lookup(body[1..], key);
      assert forall i | 1 <= i < |body| :: body[i] == body[1..][i - 1];
      v
  }

  /** `Lookup` finds the value of the first part with the key. */
  lemma {:induction false} LookupFindsFirst(body: seq<(string, string)>, key: string, i: int)
    requires 0 <= i < |body| && body[i].0 == key
    requires forall j | 0 <= j < i :: body[j].0 != key
    ensures Lookup(body, key) == Some(body[i].1)
    decreases i
  {
    if i > 0 {
      LookupFindsFirst(body[1..], key, i - 1);
    }
  }

  /**
    The body carries the five parts in order, each field under its own key
    with the value typed into it, untrimmed, plus the key and the token.
  */
  lemma RequestCarriesRawValues(fd: FormData, token: string)
    ensures |RequestBody(fd, token)| == 5
    ensures forall i | 0 <= i < 5 ::
      RequestBody(fd, token)[i].0 == ["name", "email", "message", "access_key", "h-captcha-response"][i]
    ensures forall f: Field :: Lookup(RequestBody(fd, token), Key(f)) == Some(Get(fd, f))
    ensures Lookup(RequestBody(fd, token), "access_key") == Some(AccessKey)
    ensures Lookup(RequestBody(fd, token), "h-captcha-response") == Some(token)
  {
    var body := RequestBody(fd, token);
    LookupFindsFirst(body, "name", 0);
    LookupFindsFirst(body, "email", 1);
    LookupFindsFirst(body, "message", 2);
    LookupFindsFirst(body, "access_key", 3);
    LookupFindsFirst(body, "h-captcha-response", 4);
  }

  /** A transient notification. */
  datatype Toast = Toast(title: string, description: Option<string>, destructive: bool)

  /** What the relay answered: `success` true, `success` false with an optional message, or a thrown error. */
  datatype Response = Succeeded | Failed(message: Option<string>) | Threw

  const CaptchaToast: Toast := Toast("Please complete the captcha", None, true)

  /** The notification a completed request shows. */
  function ResponseToast(response: Response): (t: Toast)
    ensures t.destructive <==> !response.Succeeded?
    ensures response.Succeeded? ==> t.title == "Message sent!"
    ensures !response.Succeeded? ==> t.title == "Error"
    ensures t.description.Some?
    ensures response.Failed? && response.message.Some? && response.message.value != ""
      ==> t.description == response.message
    ensures response.Failed? && (response.message.None? || response.message == Some(""))
      ==> t.description == Some("Something went wrong. Please try again.")
  {
    match response
    case Succeeded =>
      Toast("Message sent!", Some("Thank you for reaching out. I'll get back to you soon."), false)
    case Failed(message) =>
      var description := if message.Some? && message.value != "" then message.value
                         else "Something went wrong. Please try again.";
      Toast("Error", Some(description), true)
    case Threw =>
      Toast("Error", Some("Something went wrong. Please try again later."), true)
  }

  // ---------------------------------------------------------------------------
  // The state machine
  // ---------------------------------------------------------------------------

  /** The component's state: `formData`, `errors` (a missing key is an unset error) and `isSubmitting`. */
  datatype FormState = FormState(formData: FormData, errors: map<Field, string>, isSubmitting: bool)

  const Initial: FormState := FormState(EmptyForm, map[], false)

  /** `!hCaptchaToken`: an absent or empty token counts as missing. */
  predicate HasToken(captcha: Option<string>)
  {
    captcha.Some? && captcha.value != ""
  }

  /** `handleChange`: store the value; clear that field's error, and only if one is set. */
  function Change(s: FormState, f: Field, value: string): (r: FormState)
    ensures Get(r.formData, f) == value
    ensures forall g: Field | g != f :: Get(r.formData, g) == Get(s.formData, g)
    ensures f in r.errors <==> f in s.errors && s.errors[f] == ""
    ensures f in r.errors ==> r.errors[f] == s.errors[f]
    ensures forall g: Field | g != f :: (g in r.errors <==> g in s.errors)
    ensures forall g: Field | g != f && g in r.errors :: r.errors[g] == s.errors[g]
    ensures r.isSubmitting == s.isSubmitting
  {
    var errors := if f in s.errors && s.errors[f] != "" then s.errors - {f} else s.errors;
    FormState(With(s.formData, f, value), errors, s.isSubmitting)
  }

  /** How the synchronous half of `handleSubmit` ended. */
  datatype Started = Invalid | CaptchaMissing | Sending(body: seq<(string, string)>)

  datatype Begun = Begun(state: FormState, started: Started, toast: Option<Toast>)

  /**
    `handleSubmit` up to its `await`: validation, then the captcha token,
    then the request is sent and `isSubmitting` is raised.
  */
  function Begin(s: FormState, shape: string -> bool, captcha: Option<string>): (r: Begun)
    ensures r.state.formData == s.formData
    ensures r.started.Invalid? <==> Issues(s.formData, shape) != []
    ensures r.started.Invalid? ==>
      r.state.errors == ErrorsOf(Issues(s.formData, shape)) && r.state.isSubmitting == s.isSubmitting
      && r.toast.None?
    ensures r.started.CaptchaMissing? <==> Issues(s.formData, shape) == [] && !HasToken(captcha)
    ensures r.started.CaptchaMissing? ==> r.state == s && r.toast == Some(CaptchaToast)
    ensures r.started.Sending? <==> Issues(s.formData, shape) == [] && HasToken(captcha)
    ensures r.started.Sending? ==>
      r.state == s.(isSubmitting := true) && r.toast.None?
      && r.started.body == RequestBody(s.formData, captcha.value)
  {
    var issues := Issues(s.formData, shape);
    if issues != [] then Begun(s.(errors := ErrorsOf(issues)), Invalid, None)
    else if !HasToken(captcha) then Begun(s, CaptchaMissing, Some(CaptchaToast))
    else Begun(s.(isSubmitting := true), Sending(RequestBody(s.formData, captcha.value)), None)
  }

  /** `handleSubmit` after its `await`: the outcome's notification, the form reset on success, `finally`. */
  function Finish(s: FormState, response: Response): (r: (FormState, Toast))
    ensures r.0.formData == if response.Succeeded? then EmptyForm else s.formData
    ensures r.0.errors == s.errors
    ensures !r.0.isSubmitting
    ensures r.1 == ResponseToast(response)
  {
    var formData := if response.Succeeded? then EmptyForm else s.formData;
    (FormState(formData, s.errors, false), ResponseToast(response))
  }

  /** A whole submission: the request is made, and then answered, only when `Begin` sends it. */
  function Submit(s: FormState, shape: string -> bool, captcha: Option<string>, response: Response): (r: Begun)
    ensures r.started == Begin(s, shape, captcha).started
    ensures !r.started.Sending? ==> r == Begin(s, shape, captcha)
    ensures r.started.Sending? ==>
      !r.state.isSubmitting && r.state.errors == s.errors
      && r.state.formData == (if response.Succeeded? then EmptyForm else s.formData)
      && r.toast == Some(ResponseToast(response))
  {
    var begun := Begin(s, shape, captcha);
    if begun.started.Sending? then
      var (state, toast) := Finish(begun.state, response);
      Begun(state, begun.started, Some(toast))
    else begun
  }

  /**
    An empty name beside a valid email and message: submission is blocked,
    exactly one field error is shown and no request is made.
  */
  lemma EmptyNameIsTheOnlyError(s: FormState, shape: string -> bool, captcha: Option<string>, response: Response)
    requires Trim(s.formData.name) == ""
    requires EmailValid(s.formData.email, shape) && MessageValid(s.formData.message)
    ensures Submit(s, shape, captcha, response).started == Invalid
    ensures Submit(s, shape, captcha, response).state.errors == map[Name := "Name is required"]
    ensures Submit(s, shape, captcha, response).state.formData == s.formData
  {
    assert NameIssues(s.formData.name) == [Issue(Name, "Name is required")];
    assert EmailIssues(s.formData.email, shape) == [] && MessageIssues(s.formData.message) == [];
    var issues := Issues(s.formData, shape);
    assert issues == [Issue(Name, "Name is required")];
    ErrorsOfOne(Issue(Name, "Name is required"));
    assert Begin(s, shape, captcha) == Begun(s.(errors := ErrorsOf(issues)), Invalid, None);
  }

  /**
    A malformed email longer than 255 code units fails both checks; the
    length message, reported last, is the one shown.
  */
  lemma LongMalformedEmailShowsLengthMessage(s: FormState, shape: string -> bool)
    requires !shape(Trim(s.formData.email)) && Utf16Length(Trim(s.formData.email)) > 255
    ensures Email in Begin(s, shape, None).state.errors
    ensures Begin(s, shape, None).state.errors[Email] == "Email must be less than 255 characters"
  {
    var issues := Issues(s.formData, shape);
    var n := NameIssues(s.formData.name);
    assert issues[|n| + 1] == Issue(Email, "Email must be less than 255 characters");
    LastMessageWins(issues, |n| + 1);
  }

  // ---------------------------------------------------------------------------
  // The component
  // ---------------------------------------------------------------------------

  /** The contact form component with its three pieces of state. */
  class ContactForm {
    var formData: FormData
    var errors: map<Field, string>
    var isSubmitting: bool
    /** The validation library's email-shape test. */
    const shape: string -> bool

    function State(): FormState
      reads this
    {
      FormState(formData, errors, isSubmitting)
    }

    constructor(shape: string -> bool)
      ensures State() == Initial && this.shape == shape
    {
      formData := EmptyForm;
      errors := map[];
      isSubmitting := false;
      this.shape := shape;
    }

    /** `handleChange` for the input `field` now holding `value`. */
    method HandleChange(field: Field, value: string)
      modifies this
      ensures State() == Change(old(State()), field, value)
    {
      formData := With(formData, field, value);
      if field in errors && errors[field] != "" {
        errors := errors - {field};
      }
    }

    /** `handleSubmit` up to the request; `captcha` is the token found in the page, if any. */
    method BeginSubmit(captcha: Option<string>) returns (started: Started, toast: Option<Toast>)
      modifies this
      ensures Begun(State(), started, toast) == Begin(old(State()), shape, captcha)
    {
      var issues := Issues(formData, shape);
      if issues != [] {
        var fieldErrors := CollectFieldErrors(issues);
        errors := fieldErrors;
        return Invalid, None;
      }
      if captcha.None? || captcha.value == "" {
        return CaptchaMissing, Some(CaptchaToast);
      }
      var body := RequestBody(formData, captcha.value);
      isSubmitting := true;
      started := Sending(body);
      toast := None;
    }

    /** `handleSubmit` from the answer (or the thrown error) to the `finally`. */
    method FinishSubmit(response: Response) returns (toast: Toast)
      modifies this
      ensures (State(), toast) == Finish(old(State()), response)
    {
      match response {
        case Succeeded =>
          toast := ResponseToast(response);
          formData := EmptyForm;
        case Failed(_) =>
          toast := ResponseToast(response);
        case Threw =>
          toast := ResponseToast(response);
      }
      isSubmitting := false;
    }

    /** The whole of `handleSubmit`, given the token and the answer the relay would give. */
    method HandleSubmit(captcha: Option<string>, response: Response) returns (started: Started, toast: Option<Toast>)
      modifies this
      ensures Begun(State(), started, toast) == Submit(old(State()), shape, captcha, response)
    {
      started, toast := BeginSubmit(captcha);
      if started.Sending? {
        var shown := FinishSubmit(response);
        toast := Some(shown);
      }
    }
  }
}
