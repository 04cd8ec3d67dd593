/**
 * The client-side batch verifier: the master registry of batch records and
 * `verifyBatch`, which checks the mobile number, the optional email and the
 * mandatory location, in that order, then looks the normalised batch code up
 * in the registry.
 */
module VerificationService {
  import opened Wrappers
  import opened JsText
  import opened InputFormats

  /** The L1-L4 provenance tuple carried by every registry record. */
  datatype Traceability = Traceability(
    l1Producer: string,
    l2Product: string,
    l3Source: string,
    l4Lab: string)

  /** One registry record, as the registry literal writes it. */
  datatype BatchData = BatchData(
    code: string,
    productName: string,
    reportUrl: string,
    testDate: string,
    labName: string,
    reportNumber: string,
    traceability: Traceability)

  /** `{success: true, data}` or `{success: false, error}`; never both. */
  datatype VerificationResult = Verified(data: BatchData) | Rejected(error: string)

  const MobileError := "Please enter a valid 10-digit Indian mobile number."
  const EmailError := "Please enter a valid email address."
  const LocationError := "Location access is required for verification compliance."
  const NotFoundError := "Batch code not found in Master Registry. Please verify the alphanumeric code on your pack."

  const TomatoPulp := BatchData(
    "ADIF5HW825",
    "Tomato Pulp",
    "https://drive.google.com/file/d/1unSRMOL3uRvEpKalEkpB6dpxuGBAxunk/view?usp=sharing",
    "22/09/2025",
    "BANGALORE ANALYTICAL RESEARCH CENTRE PVT LTD",
    "BARC/FD/25/09/0456",
    Traceability(
      "Adi Bharat E-Tech (OPC) Pvt. Ltd.",
      "Tomato Pulp (Food)",
      "Standard Supplier Pool",
      "BARC - Bangalore"))

  const WheatProcessed := BatchData(
    "ADIT28WS25",
    "Wheat Processed",
    "https://drive.google.com/file/d/1ll_m8KYkP0lC1NwdIIx1edYkoiM8Lpei/view?usp=sharing",
    "22/09/2025",
    "BANGALORE ANALYTICAL RESEARCH CENTRE PVT LTD",
    "BARC/FD/25/09/XXXX",
    Traceability(
      "Adi Bharat E-Tech (OPC) Pvt. Ltd.",
      "Wheat Processed - Premium",
      "Direct Farm Procurement",
      "BARC - Bangalore"))

  /** `BATCH_MASTER_REGISTRY`. A normalised code holds no lower-case ASCII
      letter, while every `Object.prototype` member name holds one, so no
      lookup of a normalised code can reach such a member: indexing the
      object literal is exactly a map lookup. */
  const BatchMasterRegistry: map<string, BatchData> :=
    map["ADIF5HW825" := TomatoPulp, "ADIT28WS25" := WheatProcessed]

  /** True when `!s || s.trim() === ''` would be true. */
  predicate IsBlank(s: string) {
    Trim(s) == ""
  }

  /** The three input gates in source order; the message of the first one
      that fails, or `None` when all pass. */
  function ValidateInput(mobile: string, email: string, location: Option<string>): (err: Option<string>)
    ensures err == None <==>
      IsValidMobile(mobile) && (IsBlank(email) || IsValidEmail(email))
      && location.Some? && !IsBlank(location.value)
  {
    if !IsValidMobile(mobile) then Some(MobileError)
    else if email != "" && Trim(email) != "" && !IsValidEmail(email) then Some(EmailError)
    else if location.None? || location.value == "" || Trim(location.value) == "" then Some(LocationError)
    else None
  }

  /** `verifyBatch(batchCode, mobile, email, location?)`, without its
      simulated latency. */
  function VerifyBatch(batchCode: string, mobile: string, email: string, location: Option<string>): VerificationResult {
    match ValidateInput(mobile, email, location)
    case Some(err) => Rejected(err)
    case None =>
      var code := Normalise(batchCode);
      if code in BatchMasterRegistry then Verified(BatchMasterRegistry[code])
      else Rejected(NotFoundError)
  }

  /** The `[AUDIT]` warnings `verifyBatch` writes: one, naming the normalised
      code, exactly when the input passed the gates and the lookup missed. */
  function AuditWarnings(batchCode: string, mobile: string, email: string, location: Option<string>): (w: seq<string>)
    ensures |w| <= 1
    ensures w != [] <==> VerifyBatch(batchCode, mobile, email, location) == Rejected(NotFoundError)
  {
    if ValidateInput(mobile, email, location) == None && Normalise(batchCode) !in BatchMasterRegistry then
      ["[AUDIT] Failed batch lookup: " + Normalise(batchCode)]
    else
      []
  }

  /** Every registry key is its record's own code and is already in
      normalised form, so the lookup never aliases two codes. */
  lemma RegistryKeysAreNormalisedCodes()
    ensures forall k :: k in BatchMasterRegistry ==> BatchMasterRegistry[k].code == k && Normalise(k) == k
  {
    assert BatchMasterRegistry.Keys == {"ADIF5HW825", "ADIT28WS25"};
    TomatoCodeIsNormalised();
    WheatCodeIsNormalised();
  }

  lemma TomatoCodeIsNormalised()
    ensures Normalise("ADIF5HW825") == "ADIF5HW825"
  {
    var k := "ADIF5HW825";
    assert Trimmed(k) && NoLowerAscii(k);
    NormalisedIffFixed(k);
  }

  lemma WheatCodeIsNormalised()
    ensures Normalise("ADIT28WS25") == "ADIT28WS25"
  {
    var k := "ADIT28WS25";
    assert Trimmed(k) && NoLowerAscii(k);
    NormalisedIffFixed(k);
  }

  /** The result depends on the batch code only through its normalised form. */
  lemma OnlyNormalisedCodeMatters(code1: string, code2: string, mobile: string, email: string, location: Option<string>)
    requires Normalise(code1) == Normalise(code2)
    ensures VerifyBatch(code1, mobile, email, location) == VerifyBatch(code2, mobile, email, location)
  {
  }

  /** The mobile gate comes first: the mobile message is reported exactly when
      the mobile is malformed, whatever the other fields hold. */
  lemma MobileCheckedFirst(batchCode: string, mobile: string, email: string, location: Option<string>)
    ensures VerifyBatch(batchCode, mobile, email, location) == Rejected(MobileError) <==> !IsValidMobile(mobile)
  {
  }

  /** With a valid mobile, the email message is reported exactly when the
      email is non-blank and malformed, whatever the location holds. */
  lemma EmailCheckedSecond(batchCode: string, mobile: string, email: string, location: Option<string>)
    requires IsValidMobile(mobile)
    ensures VerifyBatch(batchCode, mobile, email, location) == Rejected(EmailError)
            <==> !IsBlank(email) && !IsValidEmail(email)
  {
  }

  /** A blank email is as good as none: it never changes the result. */
  lemma BlankEmailIsIgnored(batchCode: string, mobile: string, email: string, location: Option<string>)
    requires IsBlank(email)
    ensures VerifyBatch(batchCode, mobile, email, location) == VerifyBatch(batchCode, mobile, "", location)
  {
  }

  /** With valid contact fields, the location message is reported exactly
      when the location is absent or blank. */
  lemma LocationCheckedThird(batchCode: string, mobile: string, email: string, location: Option<string>)
    requires IsValidMobile(mobile) && (IsBlank(email) || IsValidEmail(email))
    ensures VerifyBatch(batchCode, mobile, email, location) == Rejected(LocationError)
            <==> location.None? || IsBlank(location.value)
  {
  }

  /** A request that fails a gate never reaches the registry: its result and
      its warnings do not depend on the batch code at all. */
  lemma RejectedInputSkipsLookup(code1: string, code2: string, mobile: string, email: string, location: Option<string>)
    requires ValidateInput(mobile, email, location).Some?
    ensures VerifyBatch(code1, mobile, email, location) == VerifyBatch(code2, mobile, email, location)
    ensures AuditWarnings(code1, mobile, email, location) == []
  {
  }

  /** A request succeeds exactly when it passes the gates and its normalised
      code is a registry key; the data is then that key's record, whose code
      is the normalised code. Every other accepted request is "not found". */
  lemma LookupOutcome(batchCode: string, mobile: string, email: string, location: Option<string>)
    ensures var r := VerifyBatch(batchCode, mobile, email, location);
      && (r.Verified? <==> ValidateInput(mobile, email, location) == None && Normalise(batchCode) in BatchMasterRegistry)
      && (r.Verified? ==> r.data == BatchMasterRegistry[Normalise(batchCode)] && r.data.code == Normalise(batchCode))
      && (ValidateInput(mobile, email, location) == None && Normalise(batchCode) !in BatchMasterRegistry
          ==> r == Rejected(NotFoundError))
  {
    RegistryKeysAreNormalisedCodes();
  }

  /** The lookup ignores white space around the code and the case of its
      letters: these spellings of one code all get the same result. */
  lemma SpellingsOfOneCodeAgree(batchCode: string, mobile: string, email: string, location: Option<string>)
    ensures VerifyBatch(ToLower(batchCode), mobile, email, location) == VerifyBatch(batchCode, mobile, email, location)
    ensures VerifyBatch(" " + batchCode + " ", mobile, email, location) == VerifyBatch(batchCode, mobile, email, location)
    ensures VerifyBatch(Normalise(batchCode), mobile, email, location) == VerifyBatch(batchCode, mobile, email, location)
  {
    assert Normalise(ToLower(batchCode)) == Normalise(batchCode) by {
      NormaliseIgnoresCase(batchCode);
    }
    OnlyNormalisedCodeMatters(ToLower(batchCode), batchCode, mobile, email, location);
    assert Normalise(" " + batchCode + " ") == Normalise(batchCode) by {
      assert AllWhitespace(" ");
      NormaliseIgnoresPadding(" ", batchCode, " ");
    }
    OnlyNormalisedCodeMatters(" " + batchCode + " ", batchCode, mobile, email, location);
    assert Normalise(Normalise(batchCode)) == Normalise(batchCode) by {
      NormaliseIdempotent(batchCode);
    }
    OnlyNormalisedCodeMatters(Normalise(batchCode), batchCode, mobile, email, location);
  }

  /** The verification form calls `verifyBatch(batchCode, mobile, email)`
      with no location, so every verification it starts is rejected by one of
      the three gates and never reaches the registry. */
  lemma FormCallAlwaysRejected(batchCode: string, mobile: string, email: string)
    ensures var r := VerifyBatch(batchCode, mobile, email, None);
      r.Rejected? && r.error in {MobileError, EmailError, LocationError}
  {
  }

  lemma TomatoPulpIsRegistered()
    ensures "ADIF5HW825" in BatchMasterRegistry && BatchMasterRegistry["ADIF5HW825"] == TomatoPulp
  {
  }

  lemma SamplePlaceIsNotBlank()
    ensures !IsBlank("Bengaluru, Karnataka")
  {
    var place := "Bengaluru, Karnataka";
    assert Trimmed(place);
    assert [] + place + [] == place;
    TrimUnique([], place, []);
  }

  lemma SampleContactIsValid()
    ensures IsValidMobile("9876543210") && IsBlank("")
  {
  }

  lemma SampleInputPasses()
    ensures ValidateInput("9876543210", "", Some("Bengaluru, Karnataka")) == None
  {
    SamplePlaceIsNotBlank();
    SampleContactIsValid();
  }

  lemma TypedCodeTrims()
    ensures Trim("adif5hw825 ") == "adif5hw825"
  {
    var typed := "adif5hw825";
    assert AllWhitespace(" ") && Trimmed(typed);
    assert [] + typed + " " == "adif5hw825 ";
    TrimUnique([], typed, " ");
  }

  lemma TypedCodeUppercases()
    ensures ToUpper("adif5hw825") == "ADIF5HW825"
  {
    var typed := "adif5hw825";
    var u := ToUpper(typed);
    forall k | 0 <= k < 10 ensures u[k] == "ADIF5HW825"[k] {
      assert u[k] == UpperChar(typed[k]);
    }
  }

  lemma TypedCodeNormalises()
    ensures Normalise("adif5hw825 ") == "ADIF5HW825"
  {
    TypedCodeTrims();
    TypedCodeUppercases();
  }

  /** A well-formed request for a registered code, typed as printed or in
      lower case with a trailing blank, is verified with that code's record. */
  lemma RegisteredCodeVerifies()
    ensures VerifyBatch("ADIF5HW825", "9876543210", "", Some("Bengaluru, Karnataka")) == Verified(TomatoPulp)
    ensures VerifyBatch("adif5hw825 ", "9876543210", "", Some("Bengaluru, Karnataka")) == Verified(TomatoPulp)
  {
    SampleInputPasses();
    TomatoPulpIsRegistered();
    RegistryKeysAreNormalisedCodes();
    TypedCodeNormalises();
    LookupOutcome("ADIF5HW825", "9876543210", "", Some("Bengaluru, Karnataka"));
    LookupOutcome("adif5hw825 ", "9876543210", "", Some("Bengaluru, Karnataka"));
  }
}
