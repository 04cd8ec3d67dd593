/**
 * The client verifier and the backend handler validate the same three
 * contact fields with the same two format predicates, but under different
 * rules for the email: the client skips a blank email, the backend demands
 * one. These lemmas put the two gate chains side by side.
 */
module RuleSets {
  import opened Wrappers
  import opened JsText
  import opened InputFormats
  import VerificationService
  import CloudFunction

  /** The backend's request body for four present fields. */
  function FormBody(fullName: string, mobile: string, email: string, batchCode: string): CloudFunction.RequestBody {
    CloudFunction.RequestBody(Some(fullName), Some(mobile), Some(email), Some(batchCode))
  }

  /** For filled-in fields, a non-blank email and a location, both gate
      chains fail on the same field and pass together. */
  lemma FormatGatesAgree(fullName: string, mobile: string, email: string, batchCode: string, place: string)
    requires fullName != "" && mobile != "" && batchCode != ""
    requires !VerificationService.IsBlank(email) && !VerificationService.IsBlank(place)
    ensures var client := VerificationService.ValidateInput(mobile, email, Some(place));
      var server := CloudFunction.Validate(FormBody(fullName, mobile, email, batchCode));
      && (client == None <==> server == None)
      && (client == Some(VerificationService.MobileError) <==> server == Some(CloudFunction.InvalidMobileError))
      && (client == Some(VerificationService.EmailError) <==> server == Some(CloudFunction.InvalidEmailError))
  {
    assert email != "" by {
      assert Trim("") == "";
    }
  }

  /** A blank email: the client lets it through, the backend answers 400,
      "Missing required fields" when it is empty and "Invalid email format"
      when it is only white space. */
  lemma BlankEmailSplitsRuleSets(fullName: string, mobile: string, email: string, batchCode: string, place: string)
    requires fullName != "" && batchCode != "" && IsValidMobile(mobile)
    requires VerificationService.IsBlank(email) && !VerificationService.IsBlank(place)
    ensures VerificationService.ValidateInput(mobile, email, Some(place)) == None
    ensures CloudFunction.Validate(FormBody(fullName, mobile, email, batchCode))
      == Some(if email == "" then CloudFunction.MissingFieldsError else CloudFunction.InvalidEmailError)
  {
    if email != "" {
      BlankTextIsWhitespace(email);
      assert !IsValidEmail(email);
    }
  }

  /** A non-empty text that trims to nothing starts with white space. */
  lemma BlankTextIsWhitespace(s: string)
    requires s != [] && Trim(s) == ""
    ensures IsWhitespace(s[0])
  {
    TrimSpec(s);
    if Lead(s) == 0 {
      assert s[0] == s[Lead(s)..][0];
    } else {
      assert s[0] == s[..Lead(s)][0];
    }
  }
}
