/** The mail composition screen of the dashboard: the campaign form, its
    per-field validation, the edit handler that clears a field's error, and
    the three buttons (preview, output test, send preparation) that run only
    on a valid form. */
module MailManagement {
  import opened Wrappers
  import opened JsText

  /** The keys of the form record. */
  datatype Field =
    | ListTarget | TargetAppointments | Industry | Purpose | Tone
    | Experience | Service | Impact

  /** The form record: seven texts and the target number of appointments. */
  datatype MailForm = MailForm(
    listTarget: string, targetAppointments: int, industry: string, purpose: string,
    tone: string, experience: string, service: string, impact: string)

  /** What an input hands to the edit handler: a text, or a number for the
      appointments field. */
  datatype Value = Text(text: string) | Number(number: int)

  /** The errors record: one optional message per field; a field without a
      message is a key that is absent (or cleared to `undefined`). */
  datatype FormErrors = FormErrors(
    listTarget: Option<string>, targetAppointments: Option<string>, industry: Option<string>,
    purpose: Option<string>, tone: Option<string>, experience: Option<string>,
    service: Option<string>, impact: Option<string>)

  const NoErrors := FormErrors(None, None, None, None, None, None, None, None)

  const InitialForm := MailForm("", 12, "", "", "", "", "", "")

  const SamplePreview: string :=
    "会社名は弊社の営業活動にとって重要な情報源となっております。弊社は先月より新機能を追加し、お客様の業務効率化を支援する新しい機能を導入しました。\n\n"
    + "この機能により、お客様の営業活動が大幅に効率化されることが期待されます。弊社では今後も継続的にサービスの向上を図り、お客様の業務をサポートしてまいります。\n\n"
    + "ご不明な点がございましたら、いつでもお気軽にお問い合わせください。"

  const PreviewFailed := "プレビューの生成に失敗しました。もう一度お試しください。"
  const OutputTestFailed := "出力テストに失敗しました。もう一度お試しください。"
  const SendPreparationFailed := "送信準備に失敗しました。もう一度お試しください。"
  const OutputTestDone := "出力テストが完了しました"
  const SendPreparationDone := "送信準備が完了しました"

  /** The fixed message shown under a field that fails validation. */
  function ErrorMessage(field: Field): string {
    match field
    case ListTarget => "リスト送信先を選択してください"
    case Industry => "想定業種を選択してください"
    case Purpose => "目的を選択してください"
    case Tone => "トーンを選択してください"
    case Experience => "原体験・エピソードを入力してください"
    case Service => "提供サービスを入力してください"
    case Impact => "インパクトを入力してください"
    case TargetAppointments => "目標アポ数は1以上の数値を入力してください"
  }

  /** The test each field must pass: the four selections must be chosen (a
      non-empty string), the three free texts must have content after trimming,
      and the target number of appointments must be positive. */
  predicate Failing(form: MailForm, field: Field) {
    match field
    case ListTarget => !Truthy(form.listTarget)
    case Industry => !Truthy(form.industry)
    case Purpose => !Truthy(form.purpose)
    case Tone => !Truthy(form.tone)
    case Experience => IsBlank(form.experience)
    case Service => IsBlank(form.service)
    case Impact => IsBlank(form.impact)
    case TargetAppointments => form.targetAppointments <= 0
  }

  /** The form as a whole is ready to use, stated field by field. */
  predicate Complete(form: MailForm) {
    && form.listTarget != [] && form.industry != [] && form.purpose != [] && form.tone != []
    && !IsBlank(form.experience) && !IsBlank(form.service) && !IsBlank(form.impact)
    && form.targetAppointments >= 1
  }

  /** Which kind of value a field holds. */
  predicate Fits(field: Field, v: Value) {
    if field == TargetAppointments then v.Number? else v.Text?
  }

  /** The value a field currently holds. */
  function FieldValue(form: MailForm, field: Field): (v: Value)
    ensures Fits(field, v)
  {
    match field
    case ListTarget => Text(form.listTarget)
    case TargetAppointments => Number(form.targetAppointments)
    case Industry => Text(form.industry)
    case Purpose => Text(form.purpose)
    case Tone => Text(form.tone)
    case Experience => Text(form.experience)
    case Service => Text(form.service)
    case Impact => Text(form.impact)
  }

  /** `{...prev, [field]: value}`: the form with one field replaced. */
  function WithField(form: MailForm, field: Field, v: Value): (r: MailForm)
    requires Fits(field, v)
    ensures FieldValue(r, field) == v
    ensures forall other :: other != field ==> FieldValue(r, other) == FieldValue(form, other)
  {
    match field
    case ListTarget => form.(listTarget := v.text)
    case TargetAppointments => form.(targetAppointments := v.number)
    case Industry => form.(industry := v.text)
    case Purpose => form.(purpose := v.text)
    case Tone => form.(tone := v.text)
    case Experience => form.(experience := v.text)
    case Service => form.(service := v.text)
    case Impact => form.(impact := v.text)
  }

  /** The adverb the preview uses for the chosen tone. */
  function TonePhrase(tone: string): (r: string)
    ensures r == "丁寧に" <==> tone == "formal"
    ensures r == "カジュアルに" <==> tone == "casual"
    ensures r == "フレンドリーに" <==> tone != "formal" && tone != "casual"
  {
    if tone == "formal" then "丁寧に" else if tone == "casual" then "カジュアルに" else "フレンドリーに"
  }

  // The fixed pieces of the placeholder preview, between the form's fields.
  const AboutPiece := "について、"
  const OfferPiece := "の皆様に特化したソリューションを提供しております。\n\n"
  const ClosingPiece := "\n\nこのような成果を、"
  const EndPiece := "お伝えさせていただきます。"

  /** `part` occurs in `s` starting at index `i`. */
  predicate OccursAt(s: string, part: string, i: int) {
    0 <= i && i + |part| <= |s| && s[i..i + |part|] == part
  }

  /** The opening of the preview: experience, a blank line, and service. */
  function Opening(form: MailForm): string {
    form.experience + "\n\n" + form.service
  }

  /** The placeholder preview text assembled from the form: the opening,
      then industry and impact at their places after the fixed pieces, and
      the tone's adverb closing it. */
  function PreviewText(form: MailForm): (r: string)
    ensures StartsWith(r, Opening(form))
    ensures EndsWith(r, TonePhrase(form.tone) + EndPiece)
    ensures var i := |Opening(form)|;
      && OccursAt(r, AboutPiece, i)
      && OccursAt(r, form.industry, i + |AboutPiece|)
      && OccursAt(r, OfferPiece, i + |AboutPiece| + |form.industry|)
      && OccursAt(r, form.impact, i + |AboutPiece| + |form.industry| + |OfferPiece|)
      && OccursAt(r, ClosingPiece, i + |AboutPiece| + |form.industry| + |OfferPiece| + |form.impact|)
    ensures |r| == |Opening(form)| + |AboutPiece| + |form.industry| + |OfferPiece| + |form.impact|
                   + |ClosingPiece| + |TonePhrase(form.tone) + EndPiece|
  {
    var tail := TonePhrase(form.tone) + EndPiece;
    SevenPartLayout(Opening(form), AboutPiece, form.industry, OfferPiece, form.impact, ClosingPiece, tail);
    Opening(form) + AboutPiece + form.industry + OfferPiece + form.impact + ClosingPiece + tail
  }

  /** Where each of seven concatenated parts sits in the whole. */
  lemma SevenPartLayout(p0: string, p1: string, p2: string, p3: string, p4: string, p5: string, p6: string)
    ensures var r := p0 + p1 + p2 + p3 + p4 + p5 + p6;
      && StartsWith(r, p0) && EndsWith(r, p6)
      && OccursAt(r, p1, |p0|)
      && OccursAt(r, p2, |p0| + |p1|)
      && OccursAt(r, p3, |p0| + |p1| + |p2|)
      && OccursAt(r, p4, |p0| + |p1| + |p2| + |p3|)
      && OccursAt(r, p5, |p0| + |p1| + |p2| + |p3| + |p4|)
  {
    var r := p0 + p1 + p2 + p3 + p4 + p5 + p6;
    assert r[..|p0|] == p0;
    assert r[|r| - |p6|..] == p6;
    var i1 := |p0|;
    var i2 := i1 + |p1|;
    var i3 := i2 + |p2|;
    var i4 := i3 + |p3|;
    var i5 := i4 + |p4|;
    assert r[i1..i2] == p1;
    assert r[i2..i3] == p2;
    assert r[i3..i4] == p3;
    assert r[i4..i5] == p4;
    assert r[i5..i5 + |p5|] == p5;
  }

  // ---------------------------------------------------------------------
  // The appointments input: `parseInt(e.target.value) || 0`
  // ---------------------------------------------------------------------

  predicate IsDecimalDigit(c: char) {
    '0' <= c <= '9'
  }

  /** A digit of the given radix (10, or 16 after a "0x" prefix). */
  predicate IsDigitIn(c: char, radix: nat) {
    if radix == 16 then IsDecimalDigit(c) || 'a' <= c <= 'f' || 'A' <= c <= 'F'
    else IsDecimalDigit(c)
  }

  function DigitValue(c: char): nat {
    if IsDecimalDigit(c) then c as nat - '0' as nat
    else if 'a' <= c <= 'f' then c as nat - 'a' as nat + 10
    else if 'A' <= c <= 'F' then c as nat - 'A' as nat + 10
    else 0
  }

  /** The longest prefix of `s` made of digits of `radix`. */
  function LeadingDigits(s: string, radix: nat): (r: string)
    ensures |r| <= |s| && r == s[..|r|]
    ensures forall i :: 0 <= i < |r| ==> IsDigitIn(r[i], radix)
    ensures |r| < |s| ==> !IsDigitIn(s[|r|], radix)
  {
    if s != [] && IsDigitIn(s[0], radix) then
      var rest := LeadingDigits(s[1..], radix);
      assert s[1..][..|rest|] == s[1..|rest| + 1];
      [s[0]] + rest
    else []
  }

  /** The number a digit string denotes in base 10 or 16, most significant
      digit first. */
  function DigitsValue(ds: string, radix: nat): nat {
    if ds == [] then 0
    else
      var high := DigitsValue(ds[..|ds| - 1], radix);
      (if radix == 16 then high * 16 else high * 10) + DigitValue(ds[|ds| - 1])
  }

  /** The text after one leading sign character, if there is one. */
  function Unsigned(t: string): (u: string)
    ensures u == t || (t != [] && (t[0] == '-' || t[0] == '+') && u == t[1..])
  {
    if t != [] && (t[0] == '-' || t[0] == '+') then t[1..] else t
  }

  /** A "0x" or "0X" prefix: the digits that follow are hexadecimal. */
  predicate HexPrefixed(u: string) {
    |u| >= 2 && u[0] == '0' && (u[1] == 'x' || u[1] == 'X')
  }

  /** The digits after the sign: a "0x" prefix selects base 16, and the
      longest run of digits of the base is read; none at all is NaN (None). */
  function Magnitude(u: string): (r: Option<nat>)
    ensures r.Some? ==> u != [] && IsDecimalDigit(u[0])
  {
    var radix := if HexPrefixed(u) then 16 else 10;
    var ds := LeadingDigits(if HexPrefixed(u) then u[2..] else u, radix);
    if ds == [] then None else Some(DigitsValue(ds, radix))
  }

  /** `parseInt(s)` without a radix argument: leading whitespace is skipped,
      one sign is read, then the magnitude. */
  function ParseInt(s: string): (r: Option<int>)
    ensures r.Some? ==> exists i :: 0 <= i < |s| && IsDecimalDigit(s[i])
  {
    var t := TrimStart(s);
    var u := Unsigned(t);
    match Magnitude(u)
    case None => None
    case Some(m) =>
      TrimStartDropsWhitespace(s);
      assert s[|s| - |u|] == u[0];
      Some(if t[0] == '-' then -(m as int) else m)
  }

  /** What the appointments input hands to the edit handler: the parsed
      integer, with NaN (and the zeros) replaced by 0. */
  function AppointmentsInput(s: string): int {
    ParseInt(s).GetOr(0)
  }

  /** The decimal numeral of `n`, as a number input shows it. */
  function Decimal(n: nat): (r: string)
    ensures r != [] && forall i :: 0 <= i < |r| ==> IsDecimalDigit(r[i])
    ensures |r| > 1 ==> r[0] != '0'
  {
    var d := ['0' + (n % 10) as char];
    if n < 10 then d else Decimal(n / 10) + d
  }

  lemma {:induction false} DecimalValue(n: nat)
    ensures DigitsValue(Decimal(n), 10) == n
  {
    var r := Decimal(n);
    if n >= 10 {
      DecimalValue(n / 10);
      assert r[..|r| - 1] == Decimal(n / 10);
    }
  }

  lemma {:induction false} DecimalAllDigits(s: string)
    requires forall i :: 0 <= i < |s| ==> IsDecimalDigit(s[i])
    ensures LeadingDigits(s, 10) == s
  {
    if s != [] {
      DecimalAllDigits(s[1..]);
      assert s == [s[0]] + s[1..];
    }
  }

  /** A run of decimal digits that does not start with "0x" reads as the
      number it denotes. */
  lemma ReadsDigits(ds: string)
    requires ds != [] && forall i :: 0 <= i < |ds| ==> IsDecimalDigit(ds[i])
    requires !HexPrefixed(ds)
    ensures Magnitude(ds) == Some(DigitsValue(ds, 10))
  {
    DecimalAllDigits(ds);
  }

  /** Text that starts with a digit has no leading whitespace. */
  lemma NothingToTrim(u: string)
    requires u != [] && IsDecimalDigit(u[0])
    ensures TrimStart(u) == u
  {
  }

  /** Text that starts with a digit is read from its first character. */
  lemma ParsesFromDigit(u: string, v: nat)
    requires u != [] && IsDecimalDigit(u[0]) && Magnitude(u) == Some(v)
    ensures ParseInt(u) == Some(v as int)
  {
    NothingToTrim(u);
    assert Unsigned(u) == u;
  }

  /** Typing the numeral of `n` yields `n`: the parser inverts the numeral. */
  lemma AppointmentsInputReadsNumeral(n: nat)
    ensures AppointmentsInput(Decimal(n)) == n
  {
    var r := Decimal(n);
    DecimalValue(n);
    ReadsDigits(r);
    ParsesFromDigit(r, n);
  }

  /** An entry without a single decimal digit (an empty or cleared box)
      becomes 0, and the form then reports the appointments error. */
  lemma NonNumericEntryFailsValidation(form: MailForm, s: string)
    requires forall i :: 0 <= i < |s| ==> !IsDecimalDigit(s[i])
    ensures AppointmentsInput(s) == 0
    ensures Failing(WithField(form, TargetAppointments, Number(AppointmentsInput(s))), TargetAppointments)
  {
  }

  // ---------------------------------------------------------------------
  // The errors record and `validateForm`
  // ---------------------------------------------------------------------

  /** `errors[field]`. */
  function ErrorOf(errors: FormErrors, field: Field): Option<string> {
    match field
    case ListTarget => errors.listTarget
    case TargetAppointments => errors.targetAppointments
    case Industry => errors.industry
    case Purpose => errors.purpose
    case Tone => errors.tone
    case Experience => errors.experience
    case Service => errors.service
    case Impact => errors.impact
  }

  /** `{...prev, [field]: undefined}`: one field's message cleared. */
  function Cleared(errors: FormErrors, field: Field): (r: FormErrors)
    ensures ErrorOf(r, field) == None
    ensures forall other :: other != field ==> ErrorOf(r, other) == ErrorOf(errors, other)
  {
    match field
    case ListTarget => errors.(listTarget := None)
    case TargetAppointments => errors.(targetAppointments := None)
    case Industry => errors.(industry := None)
    case Purpose => errors.(purpose := None)
    case Tone => errors.(tone := None)
    case Experience => errors.(experience := None)
    case Service => errors.(service := None)
    case Impact => errors.(impact := None)
  }

  /** The errors record `validateForm` builds for a form. */
  function Errors(form: MailForm): FormErrors {
    FormErrors(
      if Failing(form, ListTarget) then Some(ErrorMessage(ListTarget)) else None,
      if Failing(form, TargetAppointments) then Some(ErrorMessage(TargetAppointments)) else None,
      if Failing(form, Industry) then Some(ErrorMessage(Industry)) else None,
      if Failing(form, Purpose) then Some(ErrorMessage(Purpose)) else None,
      if Failing(form, Tone) then Some(ErrorMessage(Tone)) else None,
      if Failing(form, Experience) then Some(ErrorMessage(Experience)) else None,
      if Failing(form, Service) then Some(ErrorMessage(Service)) else None,
      if Failing(form, Impact) then Some(ErrorMessage(Impact)) else None)
  }

  /** The errors record has a key for exactly the failing fields, each with
      that field's message. */
  lemma ErrorsNameFailingFields(form: MailForm, field: Field)
    ensures ErrorOf(Errors(form), field) == if Failing(form, field) then Some(ErrorMessage(field)) else None
  {
  }

  /** The form validates (the errors record has no key) exactly when it is
      complete. */
  lemma ValidExactlyWhenComplete(form: MailForm)
    ensures Errors(form) == NoErrors <==> Complete(form)
  {
  }

  /** The first four checks of `validateForm`: the selections. */
  method CheckSelections(form: MailForm) returns (r: FormErrors)
    ensures r == NoErrors.(listTarget := Errors(form).listTarget, industry := Errors(form).industry,
                           purpose := Errors(form).purpose, tone := Errors(form).tone)
  {
    r := NoErrors;
    if !Truthy(form.listTarget) {
      r := r.(listTarget := Some(ErrorMessage(ListTarget)));
    }
    if !Truthy(form.industry) {
      r := r.(industry := Some(ErrorMessage(Industry)));
    }
    if !Truthy(form.purpose) {
      r := r.(purpose := Some(ErrorMessage(Purpose)));
    }
    if !Truthy(form.tone) {
      r := r.(tone := Some(ErrorMessage(Tone)));
    }
  }

  /** The last four checks of `validateForm`: the free texts and the number. */
  method CheckEntries(form: MailForm, errors: FormErrors) returns (r: FormErrors)
    requires errors.experience == errors.service == errors.impact == errors.targetAppointments == None
    ensures r == errors.(experience := Errors(form).experience, service := Errors(form).service,
                         impact := Errors(form).impact, targetAppointments := Errors(form).targetAppointments)
  {
    r := errors;
    if IsBlank(form.experience) {
      r := r.(experience := Some(ErrorMessage(Experience)));
    }
    if IsBlank(form.service) {
      r := r.(service := Some(ErrorMessage(Service)));
    }
    if IsBlank(form.impact) {
      r := r.(impact := Some(ErrorMessage(Impact)));
    }
    if form.targetAppointments <= 0 {
      r := r.(targetAppointments := Some(ErrorMessage(TargetAppointments)));
    }
  }

  // ---------------------------------------------------------------------
  // The component's state
  // ---------------------------------------------------------------------

  class MailManagementClient {
    var formData: MailForm
    var formErrors: FormErrors
    var preview: string
    var isLoading: bool
    var error: Option<string>

    /** Every recorded error is its field's message (and so truthy). */
    predicate Valid()
      reads this
    {
      forall field :: ErrorOf(formErrors, field) == None || ErrorOf(formErrors, field) == Some(ErrorMessage(field))
    }

    constructor()
      ensures Valid()
      ensures formData == InitialForm && formErrors == NoErrors && preview == SamplePreview
      ensures !isLoading && error == None
    {
      formData := InitialForm;
      formErrors := NoErrors;
      preview := SamplePreview;
      isLoading := false;
      error := None;
    }

    /** `handleInputChange`: store the value, and clear the field's error if
        it shows one. */
    method HandleInputChange(field: Field, v: Value)
      requires Valid() && Fits(field, v)
      modifies this
      ensures Valid()
      ensures formData == WithField(old(formData), field, v)
      ensures formErrors == Cleared(old(formErrors), field)
      ensures preview == old(preview) && isLoading == old(isLoading) && error == old(error)
    {
      formData := WithField(formData, field, v);
      var shown := ErrorOf(formErrors, field);
      if shown.Some? && Truthy(shown.value) {
        formErrors := Cleared(formErrors, field);
      }
    }

    /** `validateForm`: record one message per failing field, and report
        whether the record has no key. */
    method ValidateForm() returns (valid: bool)
      modifies this
      ensures Valid()
      ensures formErrors == Errors(formData)
      ensures valid <==> Complete(formData)
      ensures formData == old(formData) && preview == old(preview)
      ensures isLoading == old(isLoading) && error == old(error)
    {
      var errors := CheckSelections(formData);
      errors := CheckEntries(formData, errors);
      formErrors := errors;
      valid := errors == NoErrors;
      ValidExactlyWhenComplete(formData);
    }

    /** `handlePreview`: on a valid form, rebuild the preview unless the
        awaited step rejects (`rejects`), in which case show the error; the
        loading flag is cleared either way. */
    method HandlePreview(rejects: bool)
      requires Valid()
      modifies this
      ensures Valid() && formData == old(formData)
      ensures formErrors == Errors(formData)
      ensures !Complete(formData) ==>
        preview == old(preview) && isLoading == old(isLoading) && error == old(error)
      ensures Complete(formData) ==> !isLoading
      ensures Complete(formData) && rejects ==> error == Some(PreviewFailed) && preview == old(preview)
      ensures Complete(formData) && !rejects ==> error == None && preview == PreviewText(formData)
    {
      var valid := ValidateForm();
      if !valid {
        return;
      }
      isLoading := true;
      error := None;
      if rejects {
        error := Some(PreviewFailed);
      } else {
        preview := PreviewText(formData);
      }
      isLoading := false;
    }

    /** `handleOutputTest`: on a valid form, announce completion (`alert`)
        unless the awaited step rejects. */
    method HandleOutputTest(rejects: bool) returns (alert: Option<string>)
      requires Valid()
      modifies this
      ensures Valid() && formData == old(formData) && preview == old(preview)
      ensures formErrors == Errors(formData)
      ensures !Complete(formData) ==> alert == None && isLoading == old(isLoading) && error == old(error)
      ensures Complete(formData) ==> !isLoading
      ensures Complete(formData) && rejects ==> error == Some(OutputTestFailed) && alert == None
      ensures Complete(formData) && !rejects ==> error == None && alert == Some(OutputTestDone)
    {
      alert := None;
      var valid := ValidateForm();
      if !valid {
        return;
      }
      isLoading := true;
      error := None;
      if rejects {
        error := Some(OutputTestFailed);
      } else {
        alert := Some(OutputTestDone);
      }
      isLoading := false;
    }

    /** `handleSendPreparation`: as the output test, with its own messages. */
    method HandleSendPreparation(rejects: bool) returns (alert: Option<string>)
      requires Valid()
      modifies this
      ensures Valid() && formData == old(formData) && preview == old(preview)
      ensures formErrors == Errors(formData)
      ensures !Complete(formData) ==> alert == None && isLoading == old(isLoading) && error == old(error)
      ensures Complete(formData) ==> !isLoading
      ensures Complete(formData) && rejects ==> error == Some(SendPreparationFailed) && alert == None
      ensures Complete(formData) && !rejects ==> error == None && alert == Some(SendPreparationDone)
    {
      alert := None;
      var valid := ValidateForm();
      if !valid {
        return;
      }
      isLoading := true;
      error := None;
      if rejects {
        error := Some(SendPreparationFailed);
      } else {
        alert := Some(SendPreparationDone);
      }
      isLoading := false;
    }
  }
}
