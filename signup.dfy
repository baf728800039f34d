/**
 * The signup form: the schema checks on the fields, the mapping of the auth
 * service's error, and the role and application rows written for a new
 * user. The auth service itself is a parameter: its answer to `signUp`.
 */
module Signup {
  import opened Common
  import opened Schema
  import opened Store

  /** The first failing check, in the schema's field order (email, password, full name). */
  datatype ValidationError = InvalidEmail | PasswordTooShort | NameTooShort

  const MinPasswordLength: nat := 6
  const MinNameLength: nat := 2

  /** `signupSchema.safeParse`: None when every field passes; `emailValid` stands for zod's email check. */
  function Validate(emailValid: bool, password: string, fullName: string): (r: Option<ValidationError>)
    ensures r.None? <==> emailValid && |password| >= MinPasswordLength && |fullName| >= MinNameLength
    ensures r == Some(InvalidEmail) <==> !emailValid
    ensures r == Some(PasswordTooShort) <==> emailValid && |password| < MinPasswordLength
    ensures r == Some(NameTooShort) <==> emailValid && |password| >= MinPasswordLength && |fullName| < MinNameLength
  {
    if !emailValid then Some(InvalidEmail)
    else if |password| < MinPasswordLength then Some(PasswordTooShort)
    else if |fullName| < MinNameLength then Some(NameTooShort)
    else None
  }

  /** The two roles the form's select offers. */
  datatype SignupRole = VendorSignup | AffiliateSignup

  function RoleName(r: SignupRole): string {
    match r
    case VendorSignup => VendorRole
    case AffiliateSignup => AffiliateRole
  }

  /** What `signUp` answers: an error message, or data whose user may be null. */
  datatype SignUpResult = SignUpError(message: string) | SignUpOk(user: Option<Id>)

  datatype SignupOutcome =
    | ValidationFailed(error: ValidationError)
    | AccountExists
    | SignupFailed(message: string)
    | NoUserReturned
    | SignedUp(userId: Id)

  const AlreadyRegistered: string := "User already registered"

  /** The error toast: an already-registered message becomes Account Exists, anything else passes through. */
  function SignUpErrorOutcome(message: string): (o: SignupOutcome)
    ensures o == AccountExists <==> Includes(message, AlreadyRegistered)
    ensures o != AccountExists ==> o == SignupFailed(message)
  {
    if Includes(message, AlreadyRegistered) then AccountExists else SignupFailed(message)
  }

  /** The application a new user files, pending review. */
  function NewApplication(id: Id, userId: Id, email: string, fullName: string, role: SignupRole): ApplicationRow {
    ApplicationRow(id, userId, email, fullName, RoleName(role), Some(Pending), None, None, None)
  }

  /**
   * `handleSignup`: a validation failure calls nothing; a signUp error is
   * mapped and writes nothing; a returned user gets one role row and one
   * pending application, each insert's failure only logged, and the user id
   * is handed on.
   */
  method HandleSignup(st: Store, emailValid: bool, email: string, password: string, fullName: string,
                      role: SignupRole, result: SignUpResult, newApplicationId: Id,
                      roleInsertFails: bool, applicationInsertFails: bool)
    returns (outcome: SignupOutcome, signUpCalled: bool)
    modifies st`userRoles, st`applications
    ensures signUpCalled <==> Validate(emailValid, password, fullName).None?
    ensures !signUpCalled ==> outcome == ValidationFailed(Validate(emailValid, password, fullName).value)
    ensures signUpCalled && result.SignUpError? ==> outcome == SignUpErrorOutcome(result.message)
    ensures signUpCalled && result == SignUpOk(None) ==> outcome == NoUserReturned
    ensures outcome.SignedUp? <==> signUpCalled && result.SignUpOk? && result.user.Some?
    ensures outcome.SignedUp? ==> outcome.userId == result.user.value
    ensures outcome.SignedUp? ==>
      st.userRoles == InsertRole(old(st.userRoles), UserRoleRow(outcome.userId, RoleName(role)), roleInsertFails).1 &&
      st.applications == old(st.applications) +
        (if applicationInsertFails then [] else [NewApplication(newApplicationId, outcome.userId, email, fullName, role)])
    ensures !outcome.SignedUp? ==> st.userRoles == old(st.userRoles) && st.applications == old(st.applications)
  {
    var validation := Validate(emailValid, password, fullName);
    if validation.Some? {
      return ValidationFailed(validation.value), false;
    }
    signUpCalled := true;
    if result.SignUpError? {
      return SignUpErrorOutcome(result.message), signUpCalled;
    }
    if result.user.None? {
      return NoUserReturned, signUpCalled;
    }
    var userId := result.user.value;
    var roleError := st.InsertRoleRow(UserRoleRow(userId, RoleName(role)), roleInsertFails);
    if !applicationInsertFails {
      st.applications := st.applications + [NewApplication(newApplicationId, userId, email, fullName, role)];
    }
    return SignedUp(userId), signUpCalled;
  }

  /** The service's own message is recognised, and a shorter unrelated one passes through. */
  lemma AccountExistsExample()
    ensures SignUpErrorOutcome(AlreadyRegistered) == AccountExists
    ensures SignUpErrorOutcome("Signups not allowed") == SignupFailed("Signups not allowed")
  {
    assert OccursAt(AlreadyRegistered, AlreadyRegistered, 0);
  }
}
