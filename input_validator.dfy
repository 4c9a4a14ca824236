// The business-rule validators (security/InputValidator.java). Each one
// creates a fresh ValidationResult and adds one error per failing rule, in the
// order of the rules; the errors it reports are given here as a list by a
// specification function. The format checks this file takes from
// InputSanitizer and PasswordManager (isValidEmail, isValidPhone,
// isValidTrackingId, a boolean validatePasswordStrength) are not defined there
// with these signatures, so they are parameters.
module InputValidator {
  import opened Wrappers
  import opened JavaStrings
  import opened Patterns
  import opened Validation

  // ---------------------------------------------------------------------------
  // Messages

  const PickupMissing: string := "Pickup address is required"
  const PickupTooLong: string := "Pickup address too long (max 255 characters)"
  const DeliveryMissing: string := "Delivery address is required"
  const DeliveryTooLong: string := "Delivery address too long (max 255 characters)"
  const DetailsMissing: string := "Package details are required"
  const DetailsTooLong: string := "Package details too long (max 500 characters)"
  const BadRouteId: string := "Invalid route ID"
  const BadDriverId: string := "Invalid driver ID"
  const BadDate: string := "Invalid date format (expected: YYYY-MM-DD)"
  const BadSource: string := "Invalid source facility ID"
  const BadDestination: string := "Invalid destination facility ID"
  const SameFacility: string := "Source and destination facilities must be different"
  const NoPackages: string := "At least one package must be specified"
  const TooManyPackages: string := "Too many packages (max 100 per transfer)"
  const BadUserId: string := "Invalid user ID"
  const NameTooLong: string := "Name too long (max 100 characters)"
  const BadNameChars: string := "Name contains invalid characters"
  const BadPhone: string := "Invalid phone number format"
  const MfaWrongLength: string := "MFA code must be 6 digits"
  const MfaNotDigits: string := "MFA code must contain only digits"
  const InstructionsTooLong: string := "Delivery instructions too long (max 500 characters)"
  const BadFacilityId: string := "Invalid facility ID"
  const NameMissing: string := "Name cannot be empty"
  const BadEmail: string := "Invalid email format"
  const WeakPassword: string := "Password must be at least 12 characters with uppercase, lowercase, digit, and special character"
  const BadTrackingId: string := "Invalid tracking ID format (expected: D-XXX-XXX)"
  const EmailMissing: string := "Email is required"
  const PasswordMissing: string := "Password is required"

  // ---------------------------------------------------------------------------
  // Specification: the errors each validator reports, in order

  /** A required text field: missing or blank, else too long, else nothing. */
  function RequiredField(value: Option<string>, max: nat, missing: string, tooLong: string): (r: seq<string>)
    ensures |r| <= 1
    ensures r == [] <==> value.Some? && !TrimsToEmpty(value.value) && JavaLength(value.value) <= max
  {
    if value.None? || TrimsToEmpty(value.value) then [missing]
    else if JavaLength(value.value) > max then [tooLong]
    else []
  }

  /** `^[a-zA-Z\s'-]+$`. */
  predicate IsName(s: string) { IsPersonName(s, IsRegexSpace) }

  function PackageOrderErrors(pickup: Option<string>, delivery: Option<string>, details: Option<string>): seq<string>
  {
    RequiredField(pickup, 255, PickupMissing, PickupTooLong)
    + RequiredField(delivery, 255, DeliveryMissing, DeliveryTooLong)
    + RequiredField(details, 500, DetailsMissing, DetailsTooLong)
  }

  function RouteAssignmentErrors(routeId: int, driverId: int, routeDate: Option<string>): seq<string>
  {
    (if routeId <= 0 then [BadRouteId] else [])
    + (if driverId <= 0 then [BadDriverId] else [])
    + (if routeDate.None? || !IsDateShape(routeDate.value) then [BadDate] else [])
  }

  function InventoryTransferErrors(source: int, dest: int, packageIds: Option<seq<string>>): seq<string>
  {
    (if source <= 0 then [BadSource] else [])
    + (if dest <= 0 then [BadDestination] else [])
    + (if source == dest then [SameFacility] else [])
    + (if packageIds.None? || |packageIds.value| == 0 then [NoPackages]
       else if |packageIds.value| > 100 then [TooManyPackages]
       else [])
  }

  /** An optional name: skipped when null or empty, else at most 100 characters of the name alphabet. */
  function OptionalNameErrors(name: Option<string>): (r: seq<string>)
    ensures |r| <= 1
  {
    if name.None? || name.value == [] then []
    else if JavaLength(name.value) > 100 then [NameTooLong]
    else if !IsName(name.value) then [BadNameChars]
    else []
  }

  function UserUpdateErrors(userId: int, name: Option<string>, phone: Option<string>, isValidPhone: string -> bool)
    : seq<string>
  {
    (if userId <= 0 then [BadUserId] else [])
    + OptionalNameErrors(name)
    + (if phone.Some? && phone.value != [] && !isValidPhone(phone.value) then [BadPhone] else [])
  }

  function MfaCodeErrors(code: Option<string>): seq<string>
  {
    if code.None? || JavaLength(code.value) != 6 then [MfaWrongLength]
    else if !IsSixDigits(code.value) then [MfaNotDigits]
    else []
  }

  function DeliveryInstructionsErrors(instructions: Option<string>): seq<string>
  {
    if instructions.Some? && JavaLength(instructions.value) > 500 then [InstructionsTooLong]
    else []
  }

  function FacilityIdErrors(facilityId: int): seq<string>
  {
    if facilityId <= 0 then [BadFacilityId] else []
  }

  /** A required name: blank, else too long, else outside the name alphabet. */
  function RequiredNameErrors(name: Option<string>): (r: seq<string>)
    ensures |r| <= 1
    ensures r == [] <==> name.Some? && !TrimsToEmpty(name.value) && JavaLength(name.value) <= 100 && IsName(name.value)
  {
    if name.None? || TrimsToEmpty(name.value) then [NameMissing]
    else if JavaLength(name.value) > 100 then [NameTooLong]
    else if !IsName(name.value) then [BadNameChars]
    else []
  }

  function RegistrationErrors(name: Option<string>, email: Option<string>, phone: Option<string>, password: Option<string>,
                              isValidEmail: Option<string> -> bool, isValidPhone: Option<string> -> bool,
                              isStrongPassword: Option<string> -> bool): seq<string>
  {
    RequiredNameErrors(name)
    + (if !isValidEmail(email) then [BadEmail] else [])
    + (if !isValidPhone(phone) then [BadPhone] else [])
    + (if !isStrongPassword(password) then
         [WeakPassword]
       else [])
  }

  function TrackingIdErrors(trackingId: Option<string>, isValidTrackingId: Option<string> -> bool): seq<string>
  {
    if !isValidTrackingId(trackingId) then [BadTrackingId] else []
  }

  function LoginCredentialsErrors(email: Option<string>, password: Option<string>, isValidEmail: Option<string> -> bool)
    : seq<string>
  {
    (if email.None? || TrimsToEmpty(email.value) then [EmailMissing]
     else if !isValidEmail(email) then [BadEmail]
     else [])
    + (if password.None? || password.value == [] then [PasswordMissing] else [])
  }

  // ---------------------------------------------------------------------------
  // Properties of the specification

  /** A package order is valid iff all three fields are present, non-blank and within 255/255/500. */
  lemma PackageOrderValidIff(pickup: Option<string>, delivery: Option<string>, details: Option<string>)
    ensures PackageOrderErrors(pickup, delivery, details) == [] <==>
              pickup.Some? && !TrimsToEmpty(pickup.value) && JavaLength(pickup.value) <= 255
              && delivery.Some? && !TrimsToEmpty(delivery.value) && JavaLength(delivery.value) <= 255
              && details.Some? && !TrimsToEmpty(details.value) && JavaLength(details.value) <= 500
  {
  }

  /** One error per failing field, so at most three, and a missing field is reported as missing. */
  lemma PackageOrderOneErrorPerField(pickup: Option<string>, delivery: Option<string>, details: Option<string>)
    ensures var e := PackageOrderErrors(pickup, delivery, details);
      |e| == (if RequiredField(pickup, 255, "", "") == [] then 0 else 1)
             + (if RequiredField(delivery, 255, "", "") == [] then 0 else 1)
             + (if RequiredField(details, 500, "", "") == [] then 0 else 1)
    ensures pickup.None? ==> PackageOrderErrors(pickup, delivery, details)[0] == PickupMissing
  {
  }

  lemma RouteAssignmentValidIff(routeId: int, driverId: int, routeDate: Option<string>)
    ensures RouteAssignmentErrors(routeId, driverId, routeDate) == [] <==>
              routeId > 0 && driverId > 0 && routeDate.Some? && IsDateShape(routeDate.value)
  {
  }

  lemma InventoryTransferValidIff(source: int, dest: int, packageIds: Option<seq<string>>)
    ensures InventoryTransferErrors(source, dest, packageIds) == [] <==>
              source > 0 && dest > 0 && source != dest && packageIds.Some? && 1 <= |packageIds.value| <= 100
  {
  }

  /** The rules are checked independently: with both IDs zero and no list, four errors are reported. */
  lemma InventoryTransferFlagsTogether()
    ensures InventoryTransferErrors(0, 0, None) ==
              [BadSource, BadDestination,
               SameFacility, NoPackages]
  {
  }

  /** Null or empty name and phone are skipped; present ones must pass their checks. */
  lemma UserUpdateValidIff(userId: int, name: Option<string>, phone: Option<string>, isValidPhone: string -> bool)
    ensures UserUpdateErrors(userId, name, phone, isValidPhone) == [] <==>
              userId > 0
              && (name.None? || name.value == [] || (JavaLength(name.value) <= 100 && IsName(name.value)))
              && (phone.None? || phone.value == [] || isValidPhone(phone.value))
  {
  }

  /** The code is valid iff it is exactly six ASCII digits. */
  lemma MfaCodeValidIff(code: Option<string>)
    ensures MfaCodeErrors(code) == [] <==> code.Some? && IsSixDigits(code.value)
  {
    if code.Some? && IsSixDigits(code.value) {
      assert forall i :: 0 <= i < |code.value| ==> code.value[i] as int < 0x10000 by {
        forall i | 0 <= i < |code.value| ensures code.value[i] as int < 0x10000 {
          assert IsDigit(code.value[i]);
        }
      }
    }
  }

  lemma DeliveryInstructionsValidIff(instructions: Option<string>)
    ensures DeliveryInstructionsErrors(instructions) == [] <==> instructions.None? || JavaLength(instructions.value) <= 500
  {
  }

  lemma FacilityIdValidIff(facilityId: int)
    ensures FacilityIdErrors(facilityId) == [] <==> facilityId > 0
  {
  }

  /** Login credentials are valid iff the email is present, non-blank and well formed and the password non-empty. */
  lemma LoginCredentialsValidIff(email: Option<string>, password: Option<string>, isValidEmail: Option<string> -> bool)
    ensures LoginCredentialsErrors(email, password, isValidEmail) == [] <==>
              email.Some? && !TrimsToEmpty(email.value) && isValidEmail(email)
              && password.Some? && password.value != []
  {
  }

  /** Registration is valid iff the name passes and the three outside checks accept; the messages keep the check order. */
  lemma RegistrationValidIff(name: Option<string>, email: Option<string>, phone: Option<string>, password: Option<string>,
                             isValidEmail: Option<string> -> bool, isValidPhone: Option<string> -> bool,
                             isStrongPassword: Option<string> -> bool)
    ensures RegistrationErrors(name, email, phone, password, isValidEmail, isValidPhone, isStrongPassword) == [] <==>
              RequiredNameErrors(name) == [] && isValidEmail(email) && isValidPhone(phone) && isStrongPassword(password)
    ensures name.None? ==>
              RegistrationErrors(name, email, phone, password, isValidEmail, isValidPhone, isStrongPassword)[0] == NameMissing
    ensures !isStrongPassword(password) ==>
              var e := RegistrationErrors(name, email, phone, password, isValidEmail, isValidPhone, isStrongPassword);
              e[|e| - 1] == WeakPassword
  {
  }

  /** The tracking ID check adds its one message exactly when the format check refuses. */
  lemma TrackingIdValidIff(trackingId: Option<string>, isValidTrackingId: Option<string> -> bool)
    ensures TrackingIdErrors(trackingId, isValidTrackingId) == [] <==> isValidTrackingId(trackingId)
    ensures TrackingIdErrors(trackingId, isValidTrackingId) != [] ==>
              TrackingIdErrors(trackingId, isValidTrackingId) == [BadTrackingId]
  {
  }

  // ---------------------------------------------------------------------------
  // The validators
  //
  // Each validator is a sequence of independent checks. A check is an `if`
  // that adds one message, or an `if`/`else if` that adds the first of two;
  // the two helpers below are those two shapes.

  /** `if (failed) result.addError(message);` */
  method AddErrorIf(r: ValidationResult, failed: bool, message: string)
    requires r.Consistent()
    modifies r
    ensures r.Consistent() && r.messages == old(r.messages) + (if failed then [message] else [])
  {
    if failed {
      r.AddError(message);
    }
  }

  /** `if (first) result.addError(m1); else if (second) result.addError(m2);` */
  method AddFirstError(r: ValidationResult, first: bool, firstMessage: string, second: bool, secondMessage: string)
    requires r.Consistent()
    modifies r
    ensures r.Consistent()
    ensures r.messages == old(r.messages) + (if first then [firstMessage] else if second then [secondMessage] else [])
  {
    if first {
      r.AddError(firstMessage);
    } else if second {
      r.AddError(secondMessage);
    }
  }

  method ValidatePackageOrder(pickup: Option<string>, delivery: Option<string>, details: Option<string>)
    returns (r: ValidationResult)
    ensures fresh(r)
    ensures r.Consistent() && r.messages == PackageOrderErrors(pickup, delivery, details)
  {
    r := new ValidationResult();
    AddFirstError(r, pickup.None? || TrimsToEmpty(pickup.value), PickupMissing,
                  pickup.Some? && JavaLength(pickup.value) > 255, PickupTooLong);
    AddFirstError(r, delivery.None? || TrimsToEmpty(delivery.value), DeliveryMissing,
                  delivery.Some? && JavaLength(delivery.value) > 255, DeliveryTooLong);
    AddFirstError(r, details.None? || TrimsToEmpty(details.value), DetailsMissing,
                  details.Some? && JavaLength(details.value) > 500, DetailsTooLong);
  }

  method ValidateRouteAssignment(routeId: int, driverId: int, routeDate: Option<string>) returns (r: ValidationResult)
    ensures fresh(r)
    ensures r.Consistent() && r.messages == RouteAssignmentErrors(routeId, driverId, routeDate)
  {
    r := new ValidationResult();
    AddErrorIf(r, routeId <= 0, BadRouteId);
    AddErrorIf(r, driverId <= 0, BadDriverId);
    AddErrorIf(r, routeDate.None? || !IsDateShape(routeDate.value), BadDate);
  }

  method ValidateInventoryTransfer(source: int, dest: int, packageIds: Option<seq<string>>) returns (r: ValidationResult)
    ensures fresh(r)
    ensures r.Consistent() && r.messages == InventoryTransferErrors(source, dest, packageIds)
  {
    r := new ValidationResult();
    AddErrorIf(r, source <= 0, BadSource);
    AddErrorIf(r, dest <= 0, BadDestination);
    AddErrorIf(r, source == dest, SameFacility);
    AddFirstError(r, packageIds.None? || |packageIds.value| == 0, NoPackages,
                  packageIds.Some? && |packageIds.value| > 100, TooManyPackages);
  }

  method ValidateUserUpdate(userId: int, name: Option<string>, phone: Option<string>, isValidPhone: string -> bool)
    returns (r: ValidationResult)
    ensures fresh(r)
    ensures r.Consistent() && r.messages == UserUpdateErrors(userId, name, phone, isValidPhone)
  {
    r := new ValidationResult();
    AddErrorIf(r, userId <= 0, BadUserId);
    var namePresent := name.Some? && name.value != [];
    AddFirstError(r, namePresent && JavaLength(name.value) > 100, NameTooLong,
                  namePresent && !IsName(name.value), BadNameChars);
    AddErrorIf(r, phone.Some? && phone.value != [] && !isValidPhone(phone.value), BadPhone);
  }

  method ValidateMfaCode(code: Option<string>) returns (r: ValidationResult)
    ensures fresh(r)
    ensures r.Consistent() && r.messages == MfaCodeErrors(code)
  {
    r := new ValidationResult();
    AddFirstError(r, code.None? || JavaLength(code.value) != 6, MfaWrongLength,
                  code.Some? && !IsSixDigits(code.value), MfaNotDigits);
  }

  method ValidateDeliveryInstructions(instructions: Option<string>) returns (r: ValidationResult)
    ensures fresh(r)
    ensures r.Consistent() && r.messages == DeliveryInstructionsErrors(instructions)
  {
    r := new ValidationResult();
    AddErrorIf(r, instructions.Some? && JavaLength(instructions.value) > 500, InstructionsTooLong);
  }

  method ValidateFacilityId(facilityId: int) returns (r: ValidationResult)
    ensures fresh(r)
    ensures r.Consistent() && r.messages == FacilityIdErrors(facilityId)
  {
    r := new ValidationResult();
    AddErrorIf(r, facilityId <= 0, BadFacilityId);
  }

  method ValidateRegistration(name: Option<string>, email: Option<string>, phone: Option<string>, password: Option<string>,
                              isValidEmail: Option<string> -> bool, isValidPhone: Option<string> -> bool,
                              isStrongPassword: Option<string> -> bool)
    returns (r: ValidationResult)
    ensures fresh(r)
    ensures r.Consistent()
    ensures r.messages == RegistrationErrors(name, email, phone, password, isValidEmail, isValidPhone, isStrongPassword)
  {
    r := new ValidationResult();
    var nameMissing := name.None? || TrimsToEmpty(name.value);
    AddErrorIf(r, nameMissing, NameMissing);
    AddFirstError(r, !nameMissing && JavaLength(name.value) > 100, NameTooLong,
                  !nameMissing && !IsName(name.value), BadNameChars);
    assert r.messages == RequiredNameErrors(name);
    AddErrorIf(r, !isValidEmail(email), BadEmail);
    AddErrorIf(r, !isValidPhone(phone), BadPhone);
    AddErrorIf(r, !isStrongPassword(password), WeakPassword);
  }

  method ValidateTrackingId(trackingId: Option<string>, isValidTrackingId: Option<string> -> bool) returns (r: ValidationResult)
    ensures fresh(r)
    ensures r.Consistent() && r.messages == TrackingIdErrors(trackingId, isValidTrackingId)
  {
    r := new ValidationResult();
    AddErrorIf(r, !isValidTrackingId(trackingId), BadTrackingId);
  }

  method ValidateLoginCredentials(email: Option<string>, password: Option<string>, isValidEmail: Option<string> -> bool)
    returns (r: ValidationResult)
    ensures fresh(r)
    ensures r.Consistent() && r.messages == LoginCredentialsErrors(email, password, isValidEmail)
  {
    r := new ValidationResult();
    var emailMissing := email.None? || TrimsToEmpty(email.value);
    AddFirstError(r, emailMissing, EmailMissing, !isValidEmail(email), BadEmail);
    AddErrorIf(r, password.None? || password.value == [], PasswordMissing);
  }
}
