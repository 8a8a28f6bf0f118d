/**
  The form validators (utils/validation.js): the phone-number and OTP schemas as
  predicates with the issue lists they report, and `validateData`, which turns
  the outcome of a parse into a success flag and a field-to-message map.
*/
module Validation {
  import opened Wrappers
  import opened Strings

  /** One reported problem: the path of the offending field and its message. */
  datatype Issue = Issue(path: seq<string>, message: string)

  /** The auth form's fields, all strings, as the form keeps them. */
  datatype FormData = FormData(phoneNumber: string, fullPhoneNumber: string, otp: string)

  datatype Schema = PhoneNumberSchema | OtpSchema

  const PhoneTooShort: string := "Phone number must be at least 6 digits long."
  const PhoneTooLong: string := "Phone number cannot exceed 15 digits."
  const PhoneNotDigits: string := "Phone number must contain only digits."
  const OtpWrongLength: string := "The OTP must be exactly 6 digits."
  const OtpNotDigits: string := "OTP must contain only digits."
  const GeneralMessage: string := "An unexpected validation error occurred."

  const MinPhoneLength: nat := 6
  const MaxPhoneLength: nat := 15
  const OtpLength: nat := 6

  /** The phone rule: 6 to 15 characters, all of them digits. */
  predicate ValidPhoneNumber(p: string)
  {
    MinPhoneLength <= |p| <= MaxPhoneLength && AllDigits(p)
  }

  /** The OTP rule: exactly 6 characters, all of them digits. */
  predicate ValidOtp(s: string)
  {
    |s| == OtpLength && AllDigits(s)
  }

  /**
    The issues the phone-number schema reports for one field value: every
    failing check of min, max and regex, in that order (none of them stops the
    others), each with the path ["phoneNumber"].
  */
  function PhoneNumberIssues(p: string): (issues: seq<Issue>)
    ensures issues == [] <==> ValidPhoneNumber(p)
    ensures forall i :: 0 <= i < |issues| ==> issues[i].path == ["phoneNumber"]
    ensures forall i :: 0 <= i < |issues| ==> issues[i].message in {PhoneTooShort, PhoneTooLong, PhoneNotDigits}
    ensures Issue(["phoneNumber"], PhoneTooShort) in issues <==> |p| < MinPhoneLength
    ensures Issue(["phoneNumber"], PhoneTooLong) in issues <==> |p| > MaxPhoneLength
    ensures Issue(["phoneNumber"], PhoneNotDigits) in issues <==> !AllDigits(p)
    ensures !AllDigits(p) ==> issues[|issues| - 1] == Issue(["phoneNumber"], PhoneNotDigits)
  {
    var path := ["phoneNumber"];
    (if |p| < MinPhoneLength then [Issue(path, PhoneTooShort)] else [])
    + (if |p| > MaxPhoneLength then [Issue(path, PhoneTooLong)] else [])
    + (if !AllDigits(p) then [Issue(path, PhoneNotDigits)] else [])
  }

  /** The issues of the OTP schema: length, then regex, with the path ["otp"]. */
  function OtpIssues(s: string): (issues: seq<Issue>)
    ensures issues == [] <==> ValidOtp(s)
    ensures forall i :: 0 <= i < |issues| ==> issues[i].path == ["otp"]
    ensures forall i :: 0 <= i < |issues| ==> issues[i].message in {OtpWrongLength, OtpNotDigits}
    ensures Issue(["otp"], OtpWrongLength) in issues <==> |s| != OtpLength
    ensures Issue(["otp"], OtpNotDigits) in issues <==> !AllDigits(s)
    ensures !AllDigits(s) ==> issues[|issues| - 1] == Issue(["otp"], OtpNotDigits)
  {
    var path := ["otp"];
    (if |s| != OtpLength then [Issue(path, OtpWrongLength)] else [])
    + (if !AllDigits(s) then [Issue(path, OtpNotDigits)] else [])
  }

  /**
    The issues of a whole form under a schema. `fullPhoneNumber` is only
    required to be a string, so it never adds an issue; fields the schema does
    not name are ignored.
  */
  function SchemaIssues(schema: Schema, data: FormData): (issues: seq<Issue>)
    ensures schema == PhoneNumberSchema ==> (issues == [] <==> ValidPhoneNumber(data.phoneNumber))
    ensures schema == OtpSchema ==> (issues == [] <==> ValidOtp(data.otp))
  {
    match schema
    case PhoneNumberSchema => PhoneNumberIssues(data.phoneNumber)
    case OtpSchema => OtpIssues(data.otp)
  }

  /** Whatever `fullPhoneNumber` holds, the phone schema's verdict depends only on `phoneNumber`. */
  lemma FullPhoneNumberUnconstrained(data: FormData, full: string)
    ensures SchemaIssues(PhoneNumberSchema, data.(fullPhoneNumber := full)) == SchemaIssues(PhoneNumberSchema, data)
  {
  }

  /** How `schema.parse` ended: it returned, it threw a validation error with its issues, or it threw something else. */
  datatype ParseOutcome = Parsed | ValidationFailure(issues: seq<Issue>) | OtherFailure

  function Parse(schema: Schema, data: FormData): (r: ParseOutcome)
    ensures r.Parsed? <==> SchemaIssues(schema, data) == []
    ensures r.ValidationFailure? ==> r.issues == SchemaIssues(schema, data) && r.issues != []
  {
    var issues := SchemaIssues(schema, data);
    if issues == [] then Parsed else ValidationFailure(issues)
  }

  /** `issue.path[0]` used as an object key: an empty path gives the key "undefined". */
  function IssueKey(issue: Issue): (k: string)
    ensures issue.path != [] ==> k == issue.path[0]
    ensures issue.path == [] ==> k == "undefined"
  {
    if issue.path == [] then "undefined" else issue.path[0]
  }

  /** The map `reduce` builds, as a value: each issue in turn writes its message under its key. */
  function Formatted(issues: seq<Issue>): (m: map<string, string>)
    ensures forall k :: k in m <==> exists i :: 0 <= i < |issues| && IssueKey(issues[i]) == k
  {
    if issues == [] then map[]
    else
      var last := issues[|issues| - 1];
      var m := Formatted(issues[..|issues| - 1])[IssueKey(last) := last.message];
      assert forall i :: 0 <= i < |issues| - 1 ==> issues[..|issues| - 1][i] == issues[i];
      m
  }

  /** When a field has several issues, the message of its last one is the one reported. */
  lemma {:induction false} FormattedLastWins(issues: seq<Issue>, i: nat)
    requires i < |issues|
    requires forall j :: i < j < |issues| ==> IssueKey(issues[j]) != IssueKey(issues[i])
    ensures IssueKey(issues[i]) in Formatted(issues)
    ensures Formatted(issues)[IssueKey(issues[i])] == issues[i].message
  {
    if i < |issues| - 1 {
      var front := issues[..|issues| - 1];
      assert front[i] == issues[i];
      FormattedLastWins(front, i);
    }
  }

  datatype ValidationResult = ValidationResult(success: bool, errors: Option<map<string, string>>)

  /**
    The error map of a validation failure, built the way `reduce` builds it:
    an accumulator that each issue overwrites at its key.
  */
  method FormatIssues(issues: seq<Issue>) returns (acc: map<string, string>)
    ensures acc == Formatted(issues)
  {
    acc := map[];
    var i := 0;
    while i < |issues|
      invariant 0 <= i <= |issues|
      invariant acc == Formatted(issues[..i])
    {
      assert issues[..i + 1][..i] == issues[..i];
      acc := acc[IssueKey(issues[i]) := issues[i].message];
      i := i + 1;
    }
    assert issues[..|issues|] == issues;
  }

  /** `validateData` once the parse has ended with `outcome`. */
  method ValidateOutcome(outcome: ParseOutcome) returns (r: ValidationResult)
    ensures r.success <==> outcome.Parsed?
    ensures r.success ==> r.errors == None
    ensures outcome.ValidationFailure? ==> r.errors == Some(Formatted(outcome.issues))
    ensures outcome.OtherFailure? ==> r.errors == Some(map["general" := GeneralMessage])
  {
    match outcome
    case Parsed =>
      r := ValidationResult(true, None);
    case ValidationFailure(issues) =>
      var errors := FormatIssues(issues);
      r := ValidationResult(false, Some(errors));
    case OtherFailure =>
      r := ValidationResult(false, Some(map["general" := GeneralMessage]));
  }

  /** `validateData(schema, data)`: success with no errors iff the data meets the schema, else one message per failing field. */
  method ValidateData(schema: Schema, data: FormData) returns (r: ValidationResult)
    ensures r.success <==> SchemaIssues(schema, data) == []
    ensures r.success ==> r.errors == None
    ensures !r.success ==> r.errors == Some(Formatted(SchemaIssues(schema, data)))
  {
    r := ValidateOutcome(Parse(schema, data));
  }

  /** A too-short number that also holds a non-digit is reported once, with the digits message, which comes last. */
  lemma ShortNonDigitPhoneReportsDigitsRule(p: string)
    requires |p| < MinPhoneLength && !AllDigits(p)
    ensures Formatted(PhoneNumberIssues(p)) == map["phoneNumber" := PhoneNotDigits]
  {
    var issues := PhoneNumberIssues(p);
    assert issues == [Issue(["phoneNumber"], PhoneTooShort), Issue(["phoneNumber"], PhoneNotDigits)];
    FormattedLastWins(issues, 1);
  }

  /** A too-short number of digits is reported with the minimum-length message alone. */
  lemma ShortDigitPhoneReportsLength(p: string)
    requires |p| < MinPhoneLength && AllDigits(p)
    ensures Formatted(PhoneNumberIssues(p)) == map["phoneNumber" := PhoneTooShort]
  {
    var issues := PhoneNumberIssues(p);
    assert issues == [Issue(["phoneNumber"], PhoneTooShort)];
    FormattedLastWins(issues, 0);
  }

  /** Issues that all share one key are reported as the last one's message under that key. */
  lemma {:induction false} FormattedOneKey(issues: seq<Issue>, k: string)
    requires issues != []
    requires forall i :: 0 <= i < |issues| ==> IssueKey(issues[i]) == k
    ensures Formatted(issues) == map[k := issues[|issues| - 1].message]
  {
    var front := issues[..|issues| - 1];
    if front != [] {
      assert forall i :: 0 <= i < |front| ==> front[i] == issues[i];
      FormattedOneKey(front, k);
    }
  }

  /**
    The message `validateData` reports for any invalid phone number: the digits
    rule when it fails, else the maximum length, else the minimum length.
  */
  lemma PhoneReportedMessage(p: string)
    requires !ValidPhoneNumber(p)
    ensures Formatted(PhoneNumberIssues(p)) == map["phoneNumber" :=
      if !AllDigits(p) then PhoneNotDigits
      else if |p| > MaxPhoneLength then PhoneTooLong
      else PhoneTooShort]
  {
    var issues := PhoneNumberIssues(p);
    FormattedOneKey(issues, "phoneNumber");
  }

  /** The message `validateData` reports for any invalid OTP: the digits rule when it fails, else the length rule. */
  lemma OtpReportedMessage(s: string)
    requires !ValidOtp(s)
    ensures Formatted(OtpIssues(s)) == map["otp" := if !AllDigits(s) then OtpNotDigits else OtpWrongLength]
  {
    var issues := OtpIssues(s);
    FormattedOneKey(issues, "otp");
  }
}
