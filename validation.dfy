/**
 * The field rules of the back end's booking request (`validateBooking`).
 * Each field has a chain of checks that all run (no chain stops at its first
 * failure), each failing check adds its own message, and the errors of all
 * fields are collected in field order.
 *
 * A field is given as the text the checks see: `None` when it is missing,
 * which the checks read as the empty text. `trim` drops the white space of
 * JavaScript's `\s` at both ends before the later checks of its chain. The
 * email and ISO 8601 date checks are the oracles `isEmail` and `isIso8601`.
 */
module Validation {
  import opened Common
  import opened JsString

  const NameRequired: string := "Customer name is required"
  const NameLength: string := "Name must be between 2 and 100 characters"
  const EmailRequired: string := "Email is required"
  const EmailFormat: string := "Invalid email format"
  const PhoneRequired: string := "Phone number is required"
  const PhoneFormat: string := "Invalid phone number format"
  const ServiceRequired: string := "Service selection is required"
  const StartRequired: string := "Start time is required"
  const EndRequired: string := "End time is required"
  const DateFormat: string := "Invalid date format"
  const MeetingTypeRequired: string := "Meeting type is required"
  const MeetingTypeChoice: string := "Meeting type must be digital or physical"
  const BrandRequired: string := "Brand is required"
  const BrandChoice: string := "Brand must be B1 or B2"
  const PurposeBoolean: string := "Business purpose must be a boolean"
  const NotesLength: string := "Notes cannot exceed 500 characters"

  /** The request body, one text per field. */
  datatype BookingBody = BookingBody(
    customerName: Option<string>,
    customerEmail: Option<string>,
    customerPhone: Option<string>,
    serviceId: Option<string>,
    startTime: Option<string>,
    endTime: Option<string>,
    meetingType: Option<string>,
    brand: Option<string>,
    businessPurpose: Option<string>,
    notes: Option<string>)

  /** The checked fields, in the order of the chains. */
  datatype Field =
    | CustomerName | CustomerEmail | CustomerPhone | ServiceId | StartTime | EndTime
    | MeetingType | Brand | BusinessPurpose | Notes

  /** The path the error reports for a field. */
  function FieldName(f: Field): string
  {
    match f
    case CustomerName => "customerName"
    case CustomerEmail => "customerEmail"
    case CustomerPhone => "customerPhone"
    case ServiceId => "serviceId"
    case StartTime => "startTime"
    case EndTime => "endTime"
    case MeetingType => "meetingType"
    case Brand => "brand"
    case BusinessPurpose => "businessPurpose"
    case Notes => "notes"
  }

  /** One collected error. */
  datatype FieldError = FieldError(field: Field, message: string)

  /** The text a check sees: a missing field reads as empty. */
  function Text(f: Option<string>): string
  {
    OrElse(f, "")
  }

  /** A character of `[\d\s\+\-\(\)]`. */
  predicate PhoneChar(c: char)
  {
    ('0' <= c <= '9') || IsSpace(c) || c == '+' || c == '-' || c == '(' || c == ')'
  }

  /** `isBoolean`: the strict forms of a boolean. */
  predicate IsBooleanText(s: string)
  {
    s == "true" || s == "false" || s == "0" || s == "1"
  }

  /** The name chain: trimmed, required, 2 to 100 characters; an empty name fails both checks. */
  function NameErrors(f: Option<string>): (r: seq<string>)
    ensures r == [] <==> 2 <= |Trim(Text(f))| <= 100
    ensures Trim(Text(f)) == "" ==> r == [NameRequired, NameLength]
    ensures Trim(Text(f)) != "" ==> r == (if |Trim(Text(f))| <= 100 && |Trim(Text(f))| != 1 then [] else [NameLength])
  {
    var t := Trim(Text(f));
    (if t == "" then [NameRequired] else []) + (if 2 <= |t| <= 100 then [] else [NameLength])
  }

  /** The email chain: trimmed, required and an email; an empty address fails both checks. */
  function EmailErrors(f: Option<string>, isEmail: string -> bool): (r: seq<string>)
    ensures r == [] <==> Trim(Text(f)) != "" && isEmail(Trim(Text(f)))
    ensures forall m :: m in r ==> m == EmailRequired || m == EmailFormat
  {
    var t := Trim(Text(f));
    (if t == "" then [EmailRequired] else []) + (if isEmail(t) then [] else [EmailFormat])
  }

  /** The phone chain: trimmed, required and made of digits, white space and `+-()` only. */
  function PhoneErrors(f: Option<string>): (r: seq<string>)
    ensures r == [] <==> Trim(Text(f)) != "" && forall i :: 0 <= i < |Trim(Text(f))| ==> PhoneChar(Trim(Text(f))[i])
    ensures Trim(Text(f)) == "" ==> r == [PhoneRequired, PhoneFormat]
  {
    var t := Trim(Text(f));
    (if t == "" then [PhoneRequired] else [])
    + (if |t| > 0 && forall i :: 0 <= i < |t| ==> PhoneChar(t[i]) then [] else [PhoneFormat])
  }

  /** A required field without further checks. */
  function RequiredErrors(f: Option<string>, required: string): (r: seq<string>)
    ensures r == [] <==> Text(f) != ""
  {
    if Text(f) == "" then [required] else []
  }

  /** A required ISO 8601 date. */
  function DateErrors(f: Option<string>, required: string, isIso8601: string -> bool): (r: seq<string>)
    ensures r == [] <==> Text(f) != "" && isIso8601(Text(f))
  {
    (if Text(f) == "" then [required] else []) + (if isIso8601(Text(f)) then [] else [DateFormat])
  }

  /** A required choice among fixed texts. */
  function ChoiceErrors(f: Option<string>, choices: seq<string>, required: string, choice: string): (r: seq<string>)
    requires "" !in choices
    ensures r == [] <==> Text(f) in choices
    ensures Text(f) == "" ==> r == [required, choice]
  {
    (if Text(f) == "" then [required] else []) + (if Text(f) in choices then [] else [choice])
  }

  /** The optional notes: checked only when present, at most 500 characters once trimmed. */
  function NotesErrors(f: Option<string>): (r: seq<string>)
    ensures r == [] <==> f.None? || |Trim(f.value)| <= 500
  {
    if f.None? then [] else if |Trim(f.value)| <= 500 then [] else [NotesLength]
  }

  /** The messages of one field, tagged with its name. */
  function Tagged(field: Field, messages: seq<string>): (r: seq<FieldError>)
    ensures |r| == |messages|
    ensures forall i :: 0 <= i < |r| ==> r[i] == FieldError(field, messages[i])
  {
    seq(|messages|, i requires 0 <= i < |messages| => FieldError(field, messages[i]))
  }

  /** The errors of the whole body, field by field in the order of the chains. */
  function ValidateBooking(body: BookingBody, isEmail: string -> bool, isIso8601: string -> bool): seq<FieldError>
  {
    Tagged(CustomerName, NameErrors(body.customerName))
    + Tagged(CustomerEmail, EmailErrors(body.customerEmail, isEmail))
    + Tagged(CustomerPhone, PhoneErrors(body.customerPhone))
    + Tagged(ServiceId, RequiredErrors(body.serviceId, ServiceRequired))
    + Tagged(StartTime, DateErrors(body.startTime, StartRequired, isIso8601))
    + Tagged(EndTime, DateErrors(body.endTime, EndRequired, isIso8601))
    + Tagged(MeetingType, ChoiceErrors(body.meetingType, ["digital", "physical"], MeetingTypeRequired, MeetingTypeChoice))
    + Tagged(Brand, ChoiceErrors(body.brand, ["B1", "B2"], BrandRequired, BrandChoice))
    + Tagged(BusinessPurpose, if IsBooleanText(Text(body.businessPurpose)) then [] else [PurposeBoolean])
    + Tagged(Notes, NotesErrors(body.notes))
  }

  /** The rules a body must meet, field by field. */
  predicate Acceptable(body: BookingBody, isEmail: string -> bool, isIso8601: string -> bool)
  {
    var name := Trim(Text(body.customerName));
    var email := Trim(Text(body.customerEmail));
    var phone := Trim(Text(body.customerPhone));
    && 2 <= |name| <= 100
    && email != "" && isEmail(email)
    && phone != "" && (forall i :: 0 <= i < |phone| ==> PhoneChar(phone[i]))
    && Text(body.serviceId) != ""
    && Text(body.startTime) != "" && isIso8601(Text(body.startTime))
    && Text(body.endTime) != "" && isIso8601(Text(body.endTime))
    && (Text(body.meetingType) == "digital" || Text(body.meetingType) == "physical")
    && (Text(body.brand) == "B1" || Text(body.brand) == "B2")
    && IsBooleanText(Text(body.businessPurpose))
    && (body.notes.None? || |Trim(body.notes.value)| <= 500)
  }

  /** A body passes with no error exactly when it meets every rule. */
  lemma ValidateBookingAccepts(body: BookingBody, isEmail: string -> bool, isIso8601: string -> bool)
    ensures ValidateBooking(body, isEmail, isIso8601) == [] <==> Acceptable(body, isEmail, isIso8601)
  {
    var mt := ChoiceErrors(body.meetingType, ["digital", "physical"], MeetingTypeRequired, MeetingTypeChoice);
    var br := ChoiceErrors(body.brand, ["B1", "B2"], BrandRequired, BrandChoice);
    assert mt == [] <==> (Text(body.meetingType) == "digital" || Text(body.meetingType) == "physical");
    assert br == [] <==> (Text(body.brand) == "B1" || Text(body.brand) == "B2");
  }

  /** The messages a field's chain can report. */
  function FieldMessages(field: Field): seq<string>
  {
    match field
    case CustomerName => [NameRequired, NameLength]
    case CustomerEmail => [EmailRequired, EmailFormat]
    case CustomerPhone => [PhoneRequired, PhoneFormat]
    case ServiceId => [ServiceRequired]
    case StartTime => [StartRequired, DateFormat]
    case EndTime => [EndRequired, DateFormat]
    case MeetingType => [MeetingTypeRequired, MeetingTypeChoice]
    case Brand => [BrandRequired, BrandChoice]
    case BusinessPurpose => [PurposeBoolean]
    case Notes => [NotesLength]
  }

  /** Every error carries one of the messages of its field's chain. */
  predicate AllOwn(errors: seq<FieldError>)
  {
    forall i :: 0 <= i < |errors| ==> errors[i].message in FieldMessages(errors[i].field)
  }

  /** Tagging messages that all belong to the field gives errors that all belong to their field. */
  lemma TaggedOwn(field: Field, messages: seq<string>)
    requires forall m :: m in messages ==> m in FieldMessages(field)
    ensures AllOwn(Tagged(field, messages))
  {
    forall i | 0 <= i < |messages| ensures messages[i] in FieldMessages(field) {
      assert messages[i] in messages;
    }
  }

  lemma OwnConcat(a: seq<FieldError>, b: seq<FieldError>)
    requires AllOwn(a) && AllOwn(b)
    ensures AllOwn(a + b)
  {
    forall i | 0 <= i < |a + b| ensures (a + b)[i].message in FieldMessages((a + b)[i].field) {
      if i >= |a| {
        assert (a + b)[i] == b[i - |a|];
      }
    }
  }

  /** The first five chains report only their own messages. */
  lemma FirstChainsOwn(body: BookingBody, isEmail: string -> bool, isIso8601: string -> bool)
    ensures AllOwn(Tagged(CustomerName, NameErrors(body.customerName)))
    ensures AllOwn(Tagged(CustomerEmail, EmailErrors(body.customerEmail, isEmail)))
    ensures AllOwn(Tagged(CustomerPhone, PhoneErrors(body.customerPhone)))
    ensures AllOwn(Tagged(ServiceId, RequiredErrors(body.serviceId, ServiceRequired)))
    ensures AllOwn(Tagged(StartTime, DateErrors(body.startTime, StartRequired, isIso8601)))
  {
    TaggedOwn(CustomerName, NameErrors(body.customerName));
    TaggedOwn(CustomerEmail, EmailErrors(body.customerEmail, isEmail));
    TaggedOwn(CustomerPhone, PhoneErrors(body.customerPhone));
    TaggedOwn(ServiceId, RequiredErrors(body.serviceId, ServiceRequired));
    TaggedOwn(StartTime, DateErrors(body.startTime, StartRequired, isIso8601));
  }

  /** The end time and meeting type chains report only their own messages. */
  lemma MiddleChainsOwn(body: BookingBody, isIso8601: string -> bool)
    ensures AllOwn(Tagged(EndTime, DateErrors(body.endTime, EndRequired, isIso8601)))
    ensures AllOwn(Tagged(MeetingType, ChoiceErrors(body.meetingType, ["digital", "physical"], MeetingTypeRequired, MeetingTypeChoice)))
  {
    TaggedOwn(EndTime, DateErrors(body.endTime, EndRequired, isIso8601));
    TaggedOwn(MeetingType, ChoiceErrors(body.meetingType, ["digital", "physical"], MeetingTypeRequired, MeetingTypeChoice));
  }

  /** The last three chains report only their own messages. */
  lemma LastChainsOwn(body: BookingBody)
    ensures AllOwn(Tagged(Brand, ChoiceErrors(body.brand, ["B1", "B2"], BrandRequired, BrandChoice)))
    ensures AllOwn(Tagged(BusinessPurpose, if IsBooleanText(Text(body.businessPurpose)) then [] else [PurposeBoolean]))
    ensures AllOwn(Tagged(Notes, NotesErrors(body.notes)))
  {
    TaggedOwn(Brand, ChoiceErrors(body.brand, ["B1", "B2"], BrandRequired, BrandChoice));
    TaggedOwn(BusinessPurpose, if IsBooleanText(Text(body.businessPurpose)) then [] else [PurposeBoolean]);
    TaggedOwn(Notes, NotesErrors(body.notes));
  }

  /** Every error carries one of the messages of its field's chain. */
  lemma ErrorsBelongToTheirFields(body: BookingBody, isEmail: string -> bool, isIso8601: string -> bool)
    ensures AllOwn(ValidateBooking(body, isEmail, isIso8601))
  {
    var e1 := Tagged(CustomerName, NameErrors(body.customerName));
    var e2 := Tagged(CustomerEmail, EmailErrors(body.customerEmail, isEmail));
    var e3 := Tagged(CustomerPhone, PhoneErrors(body.customerPhone));
    var e4 := Tagged(ServiceId, RequiredErrors(body.serviceId, ServiceRequired));
    var e5 := Tagged(StartTime, DateErrors(body.startTime, StartRequired, isIso8601));
    var e6 := Tagged(EndTime, DateErrors(body.endTime, EndRequired, isIso8601));
    var e7 := Tagged(MeetingType, ChoiceErrors(body.meetingType, ["digital", "physical"], MeetingTypeRequired, MeetingTypeChoice));
    var e8 := Tagged(Brand, ChoiceErrors(body.brand, ["B1", "B2"], BrandRequired, BrandChoice));
    var e9 := Tagged(BusinessPurpose, if IsBooleanText(Text(body.businessPurpose)) then [] else [PurposeBoolean]);
    var e10 := Tagged(Notes, NotesErrors(body.notes));
    FirstChainsOwn(body, isEmail, isIso8601);
    MiddleChainsOwn(body, isIso8601);
    LastChainsOwn(body);
    OwnConcat(e1, e2);
    OwnConcat(e1 + e2, e3);
    OwnConcat(e1 + e2 + e3, e4);
    OwnConcat(e1 + e2 + e3 + e4, e5);
    OwnConcat(e1 + e2 + e3 + e4 + e5, e6);
    OwnConcat(e1 + e2 + e3 + e4 + e5 + e6, e7);
    OwnConcat(e1 + e2 + e3 + e4 + e5 + e6 + e7, e8);
    OwnConcat(e1 + e2 + e3 + e4 + e5 + e6 + e7 + e8, e9);
    OwnConcat(e1 + e2 + e3 + e4 + e5 + e6 + e7 + e8 + e9, e10);
  }

  /** A missing name, phone, meeting type and brand each report both their checks. */
  lemma EmptyBodyReportsEveryCheck(isEmail: string -> bool, isIso8601: string -> bool)
    ensures var body := BookingBody(None, None, None, None, None, None, None, None, None, None);
      ValidateBooking(body, isEmail, isIso8601) ==
        Tagged(CustomerName, [NameRequired, NameLength])
        + Tagged(CustomerEmail, [EmailRequired] + (if isEmail("") then [] else [EmailFormat]))
        + Tagged(CustomerPhone, [PhoneRequired, PhoneFormat])
        + Tagged(ServiceId, [ServiceRequired])
        + Tagged(StartTime, [StartRequired] + (if isIso8601("") then [] else [DateFormat]))
        + Tagged(EndTime, [EndRequired] + (if isIso8601("") then [] else [DateFormat]))
        + Tagged(MeetingType, [MeetingTypeRequired, MeetingTypeChoice])
        + Tagged(Brand, [BrandRequired, BrandChoice])
        + Tagged(BusinessPurpose, [PurposeBoolean])
  {
    var body := BookingBody(None, None, None, None, None, None, None, None, None, None);
    assert Trim("") == "";
    assert Tagged(Notes, NotesErrors(body.notes)) == [];
  }
}
