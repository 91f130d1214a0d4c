/** The record definitions of the backend's data layer: the enumerations each record's
    status-like columns draw from, the defaults filled in when a column is not given,
    and the checks run when a record is created (required columns, enumeration
    membership, integer ranges). */
module Records {
  import opened Wrappers

  // ---------------------------------------------------------------- enumerations

  datatype Role = Admin | DoctorRole | Pharmacist | Receptionist | PatientRole

  function RoleName(r: Role): string {
    match r
    case Admin => "admin"
    case DoctorRole => "doctor"
    case Pharmacist => "pharmacist"
    case Receptionist => "receptionist"
    case PatientRole => "patient"
  }

  /** The column accepts exactly the five role names. */
  function ParseRole(s: string): (r: Option<Role>)
    ensures r.Some? ==> RoleName(r.value) == s
    ensures r.None? ==> forall v :: RoleName(v) != s
  {
    if s == "admin" then Some(Admin)
    else if s == "doctor" then Some(DoctorRole)
    else if s == "pharmacist" then Some(Pharmacist)
    else if s == "receptionist" then Some(Receptionist)
    else if s == "patient" then Some(PatientRole)
    else None
  }

  datatype DoctorStatus = Available | WithPatient | Break | Lunch | Meeting | Leave

  function DoctorStatusName(d: DoctorStatus): string {
    match d
    case Available => "available"
    case WithPatient => "with_patient"
    case Break => "break"
    case Lunch => "lunch"
    case Meeting => "meeting"
    case Leave => "leave"
  }

  function ParseDoctorStatus(s: string): (r: Option<DoctorStatus>)
    ensures r.Some? ==> DoctorStatusName(r.value) == s
    ensures r.None? ==> forall v :: DoctorStatusName(v) != s
  {
    if s == "available" then Some(Available)
    else if s == "with_patient" then Some(WithPatient)
    else if s == "break" then Some(Break)
    else if s == "lunch" then Some(Lunch)
    else if s == "meeting" then Some(Meeting)
    else if s == "leave" then Some(Leave)
    else None
  }

  datatype AppointmentStatus = Booked | Confirmed | InProgress | Completed | Cancelled

  function AppointmentStatusName(a: AppointmentStatus): string {
    match a
    case Booked => "booked"
    case Confirmed => "confirmed"
    case InProgress => "in_progress"
    case Completed => "completed"
    case Cancelled => "cancelled"
  }

  function ParseAppointmentStatus(s: string): (r: Option<AppointmentStatus>)
    ensures r.Some? ==> AppointmentStatusName(r.value) == s
    ensures r.None? ==> forall v :: AppointmentStatusName(v) != s
  {
    if s == "booked" then Some(Booked)
    else if s == "confirmed" then Some(Confirmed)
    else if s == "in_progress" then Some(InProgress)
    else if s == "completed" then Some(Completed)
    else if s == "cancelled" then Some(Cancelled)
    else None
  }

  /** The appointment status column has no `checked_in` value. */
  lemma NoCheckedInStatus()
    ensures ParseAppointmentStatus("checked_in") == None
    ensures forall v :: AppointmentStatusName(v) != "checked_in"
  {
  }

  datatype PrescriptionStatus = PrescriptionPending | Received | Dispensed

  function PrescriptionStatusName(p: PrescriptionStatus): string {
    match p
    case PrescriptionPending => "pending"
    case Received => "received"
    case Dispensed => "dispensed"
  }

  function ParsePrescriptionStatus(s: string): (r: Option<PrescriptionStatus>)
    ensures r.Some? ==> PrescriptionStatusName(r.value) == s
    ensures r.None? ==> forall v :: PrescriptionStatusName(v) != s
  {
    if s == "pending" then Some(PrescriptionPending)
    else if s == "received" then Some(Received)
    else if s == "dispensed" then Some(Dispensed)
    else None
  }

  datatype BillingStatus = BillPending | Paid | Partial | BillCancelled

  function BillingStatusName(b: BillingStatus): string {
    match b
    case BillPending => "pending"
    case Paid => "paid"
    case Partial => "partial"
    case BillCancelled => "cancelled"
  }

  function ParseBillingStatus(s: string): (r: Option<BillingStatus>)
    ensures r.Some? ==> BillingStatusName(r.value) == s
    ensures r.None? ==> forall v :: BillingStatusName(v) != s
  {
    if s == "pending" then Some(BillPending)
    else if s == "paid" then Some(Paid)
    else if s == "partial" then Some(Partial)
    else if s == "cancelled" then Some(BillCancelled)
    else None
  }

  datatype PaymentMethod = Cash | Card | Upi | Insurance

  function PaymentMethodName(p: PaymentMethod): string {
    match p
    case Cash => "cash"
    case Card => "card"
    case Upi => "upi"
    case Insurance => "insurance"
  }

  function ParsePaymentMethod(s: string): (r: Option<PaymentMethod>)
    ensures r.Some? ==> PaymentMethodName(r.value) == s
    ensures r.None? ==> forall v :: PaymentMethodName(v) != s
  {
    if s == "cash" then Some(Cash)
    else if s == "card" then Some(Card)
    else if s == "upi" then Some(Upi)
    else if s == "insurance" then Some(Insurance)
    else None
  }

  datatype SosStatus = SosPending | Acknowledged | Dispatched | Resolved

  function SosStatusName(s: SosStatus): string {
    match s
    case SosPending => "pending"
    case Acknowledged => "acknowledged"
    case Dispatched => "dispatched"
    case Resolved => "resolved"
  }

  function ParseSosStatus(s: string): (r: Option<SosStatus>)
    ensures r.Some? ==> SosStatusName(r.value) == s
    ensures r.None? ==> forall v :: SosStatusName(v) != s
  {
    if s == "pending" then Some(SosPending)
    else if s == "acknowledged" then Some(Acknowledged)
    else if s == "dispatched" then Some(Dispatched)
    else if s == "resolved" then Some(Resolved)
    else None
  }

  /** Every enumeration value is stored under its name and read back as itself. */
  lemma RoleRoundTrip(v: Role)
    ensures ParseRole(RoleName(v)) == Some(v)
  {
  }

  lemma DoctorStatusRoundTrip(v: DoctorStatus)
    ensures ParseDoctorStatus(DoctorStatusName(v)) == Some(v)
  {
  }

  lemma AppointmentStatusRoundTrip(v: AppointmentStatus)
    ensures ParseAppointmentStatus(AppointmentStatusName(v)) == Some(v)
  {
  }

  lemma PrescriptionStatusRoundTrip(v: PrescriptionStatus)
    ensures ParsePrescriptionStatus(PrescriptionStatusName(v)) == Some(v)
  {
  }

  lemma BillingStatusRoundTrip(v: BillingStatus)
    ensures ParseBillingStatus(BillingStatusName(v)) == Some(v)
  {
  }

  lemma PaymentMethodRoundTrip(v: PaymentMethod)
    ensures ParsePaymentMethod(PaymentMethodName(v)) == Some(v)
  {
  }

  lemma SosStatusRoundTrip(v: SosStatus)
    ensures ParseSosStatus(SosStatusName(v)) == Some(v)
  {
  }

  lemma EnumRoundTrips()
    ensures forall v :: ParseRole(RoleName(v)) == Some(v)
    ensures forall v :: ParseDoctorStatus(DoctorStatusName(v)) == Some(v)
    ensures forall v :: ParseAppointmentStatus(AppointmentStatusName(v)) == Some(v)
    ensures forall v :: ParsePrescriptionStatus(PrescriptionStatusName(v)) == Some(v)
    ensures forall v :: ParseBillingStatus(BillingStatusName(v)) == Some(v)
    ensures forall v :: ParsePaymentMethod(PaymentMethodName(v)) == Some(v)
    ensures forall v :: ParseSosStatus(SosStatusName(v)) == Some(v)
  {
    forall v: Role { RoleRoundTrip(v); }
    forall v: DoctorStatus { DoctorStatusRoundTrip(v); }
    forall v: AppointmentStatus { AppointmentStatusRoundTrip(v); }
    forall v: PrescriptionStatus { PrescriptionStatusRoundTrip(v); }
    forall v: BillingStatus { BillingStatusRoundTrip(v); }
    forall v: PaymentMethod { PaymentMethodRoundTrip(v); }
    forall v: SosStatus { SosStatusRoundTrip(v); }
  }

  // ---------------------------------------------------------------- validation

  /** Why a create is rejected: a required column left empty, a value outside its
      enumeration, an integer outside its `min`/`max` range. */
  datatype Violation = NotNull(column: string) | NotInEnum(column: string) | OutOfRange(column: string)

  /** The severity scale shared by triage, disease records and SOS alerts. */
  predicate InSeverityRange(n: int) {
    1 <= n <= 5
  }

  /** An optional integer column with `validate: { min: 1, max: 5 }`. */
  predicate OptionalSeverity(s: Option<int>) {
    s.Some? ==> InSeverityRange(s.value)
  }

  /** The violation, if any, of a required column. */
  function Required<T>(column: string, v: Option<T>): set<Violation> {
    if v.None? then {NotNull(column)} else {}
  }

  /** The violation, if any, of an enumeration column given as text. */
  function EnumCheck<E>(column: string, v: Option<string>, parse: string -> Option<E>): set<Violation> {
    if v.Some? && parse(v.value).None? then {NotInEnum(column)} else {}
  }

  /** The violation, if any, of an optional 1..5 column. */
  function RangeCheck(column: string, v: Option<int>): set<Violation> {
    if v.Some? && !InSeverityRange(v.value) then {OutOfRange(column)} else {}
  }

  /** The column's value: the given text parsed, or the column default when not given. */
  function EnumOr<E>(v: Option<string>, parse: string -> Option<E>, default: E): E {
    if v.Some? && parse(v.value).Some? then parse(v.value).value else default
  }

  // ---------------------------------------------------------------- users

  datatype UserInput = UserInput(name: Option<string>, email: Option<string>,
                                 passwordHash: Option<string>, role: Option<string>,
                                 isActive: Option<bool>)

  datatype User = User(name: string, email: string, passwordHash: string, role: Role, isActive: bool)

  function UserViolations(u: UserInput): set<Violation> {
    Required("name", u.name) + Required("email", u.email) + Required("password_hash", u.passwordHash)
    + EnumCheck("role", u.role, ParseRole)
  }

  /** A user is created exactly when name, email and password hash are given and any
      role given is one of the five; role defaults to patient, is_active to true. */
  function CreateUser(u: UserInput): (r: Result<User, set<Violation>>)
    ensures r.Success? <==> u.name.Some? && u.email.Some? && u.passwordHash.Some? &&
                            (u.role.Some? ==> ParseRole(u.role.value).Some?)
    ensures r.Failure? ==> r.error != {}
    ensures r.Success? ==> r.value.name == u.name.value && r.value.email == u.email.value &&
                           r.value.passwordHash == u.passwordHash.value
    ensures r.Success? ==> RoleName(r.value.role) == u.role.GetOr("patient")
    ensures r.Success? ==> r.value.isActive == u.isActive.GetOr(true)
  {
    var errs := UserViolations(u);
    if errs != {} then Failure(errs)
    else Success(User(u.name.value, u.email.value, u.passwordHash.value,
                      EnumOr(u.role, ParseRole, PatientRole), u.isActive.GetOr(true)))
  }

  // ---------------------------------------------------------------- doctors

  datatype DoctorInput = DoctorInput(name: Option<string>, specialty: Option<string>, status: Option<string>)

  datatype Doctor = Doctor(name: string, specialty: string, status: DoctorStatus)

  function DoctorViolations(d: DoctorInput): set<Violation> {
    Required("name", d.name) + Required("specialty", d.specialty)
    + EnumCheck("status", d.status, ParseDoctorStatus)
  }

  /** A doctor needs a name and a specialty; status is one of the six, default available. */
  function CreateDoctor(d: DoctorInput): (r: Result<Doctor, set<Violation>>)
    ensures r.Success? <==> d.name.Some? && d.specialty.Some? &&
                            (d.status.Some? ==> ParseDoctorStatus(d.status.value).Some?)
    ensures r.Failure? ==> r.error != {}
    ensures r.Success? ==> r.value.name == d.name.value && r.value.specialty == d.specialty.value
    ensures r.Success? ==> DoctorStatusName(r.value.status) == d.status.GetOr("available")
  {
    var errs := DoctorViolations(d);
    if errs != {} then Failure(errs)
    else Success(Doctor(d.name.value, d.specialty.value, EnumOr(d.status, ParseDoctorStatus, Available)))
  }

  // ---------------------------------------------------------------- appointments

  datatype AppointmentInput = AppointmentInput(
    scheduledTime: Option<int>, status: Option<string>, triageSeverity: Option<int>,
    isWalkIn: Option<bool>, queuePosition: Option<int>, estimatedWaitMinutes: Option<int>)

  datatype Appointment = Appointment(
    scheduledTime: int, status: AppointmentStatus, triageSeverity: Option<int>,
    isWalkIn: bool, queuePosition: Option<int>, estimatedWaitMinutes: Option<int>)

  predicate ValidAppointment(a: Appointment) {
    OptionalSeverity(a.triageSeverity)
  }

  function AppointmentViolations(a: AppointmentInput): set<Violation> {
    Required("scheduled_time", a.scheduledTime)
    + EnumCheck("status", a.status, ParseAppointmentStatus)
    + RangeCheck("triage_severity", a.triageSeverity)
  }

  /** An appointment needs a scheduled time; its status is one of five (default booked),
      a triage severity when given is in 1..5, is_walk_in defaults to false, and queue
      position and estimated wait stay as given, any integer or none. */
  function CreateAppointment(a: AppointmentInput): (r: Result<Appointment, set<Violation>>)
    ensures r.Success? <==> a.scheduledTime.Some? &&
                            (a.status.Some? ==> ParseAppointmentStatus(a.status.value).Some?) &&
                            OptionalSeverity(a.triageSeverity)
    ensures r.Failure? ==> r.error != {}
    ensures r.Success? ==> ValidAppointment(r.value) && r.value.scheduledTime == a.scheduledTime.value
    ensures r.Success? ==> AppointmentStatusName(r.value.status) == a.status.GetOr("booked")
    ensures r.Success? ==> r.value.triageSeverity == a.triageSeverity
    ensures r.Success? ==> r.value.isWalkIn == a.isWalkIn.GetOr(false)
    ensures r.Success? ==> r.value.queuePosition == a.queuePosition &&
                           r.value.estimatedWaitMinutes == a.estimatedWaitMinutes
  {
    var errs := AppointmentViolations(a);
    if errs != {} then Failure(errs)
    else Success(Appointment(a.scheduledTime.value, EnumOr(a.status, ParseAppointmentStatus, Booked),
                             a.triageSeverity, a.isWalkIn.GetOr(false),
                             a.queuePosition, a.estimatedWaitMinutes))
  }

  // ---------------------------------------------------------------- prescriptions and billing

  datatype Prescription = Prescription(status: PrescriptionStatus)

  /** A prescription's status is one of three, default pending. */
  function CreatePrescription(status: Option<string>): (r: Result<Prescription, set<Violation>>)
    ensures r.Success? <==> (status.Some? ==> ParsePrescriptionStatus(status.value).Some?)
    ensures r.Failure? ==> r.error == {NotInEnum("status")}
    ensures r.Success? ==> PrescriptionStatusName(r.value.status) == status.GetOr("pending")
  {
    var errs := EnumCheck("status", status, ParsePrescriptionStatus);
    if errs != {} then Failure(errs)
    else Success(Prescription(EnumOr(status, ParsePrescriptionStatus, PrescriptionPending)))
  }

  datatype Billing = Billing(paymentMethod: Option<PaymentMethod>, status: BillingStatus)

  /** A bill's status is one of four (default pending); the payment method may be absent,
      and when present is one of four. */
  function CreateBilling(paymentMethod: Option<string>, status: Option<string>): (r: Result<Billing, set<Violation>>)
    ensures r.Success? <==> (paymentMethod.Some? ==> ParsePaymentMethod(paymentMethod.value).Some?) &&
                            (status.Some? ==> ParseBillingStatus(status.value).Some?)
    ensures r.Failure? ==> r.error != {}
    ensures r.Success? ==> (r.value.paymentMethod.None? <==> paymentMethod.None?)
    ensures r.Success? && paymentMethod.Some? ==> PaymentMethodName(r.value.paymentMethod.value) == paymentMethod.value
    ensures r.Success? ==> BillingStatusName(r.value.status) == status.GetOr("pending")
  {
    var errs := EnumCheck("payment_method", paymentMethod, ParsePaymentMethod)
                + EnumCheck("status", status, ParseBillingStatus);
    if errs != {} then Failure(errs)
    else
      var pm := if paymentMethod.Some? then ParsePaymentMethod(paymentMethod.value) else None;
      Success(Billing(pm, EnumOr(status, ParseBillingStatus, BillPending)))
  }

  // ---------------------------------------------------------------- disease records and SOS alerts

  datatype DiseaseRecord = DiseaseRecord(diagnosisName: string, severity: Option<int>)

  /** A disease record needs a diagnosis name; its severity may be absent, else in 1..5. */
  function CreateDiseaseRecord(diagnosisName: Option<string>, severity: Option<int>): (r: Result<DiseaseRecord, set<Violation>>)
    ensures r.Success? <==> diagnosisName.Some? && OptionalSeverity(severity)
    ensures r.Failure? ==> r.error != {}
    ensures r.Success? ==> r.value.diagnosisName == diagnosisName.value
    ensures r.Success? ==> OptionalSeverity(r.value.severity) && r.value.severity == severity
  {
    var errs := Required("diagnosis_name", diagnosisName) + RangeCheck("severity", severity);
    if errs != {} then Failure(errs)
    else Success(DiseaseRecord(diagnosisName.value, severity))
  }

  datatype SosAlert = SosAlert(severity: int, status: SosStatus)

  predicate ValidSosAlert(a: SosAlert) {
    InSeverityRange(a.severity)
  }

  /** An SOS alert must carry a severity in 1..5; its status is one of four, default pending. */
  function CreateSosAlert(severity: Option<int>, status: Option<string>): (r: Result<SosAlert, set<Violation>>)
    ensures r.Success? <==> severity.Some? && InSeverityRange(severity.value) &&
                            (status.Some? ==> ParseSosStatus(status.value).Some?)
    ensures r.Failure? ==> r.error != {}
    ensures severity.None? ==> r.Failure? && NotNull("severity") in r.error
    ensures r.Success? ==> ValidSosAlert(r.value) && r.value.severity == severity.value
    ensures r.Success? ==> SosStatusName(r.value.status) == status.GetOr("pending")
  {
    var errs := Required("severity", severity) + RangeCheck("severity", severity)
                + EnumCheck("status", status, ParseSosStatus);
    if errs != {} then Failure(errs)
    else Success(SosAlert(severity.value, EnumOr(status, ParseSosStatus, SosPending)))
  }

  /** With nothing but the required columns given, every default applies. */
  lemma DefaultsApply(name: string, email: string, hash: string, time: int)
    ensures CreateUser(UserInput(Some(name), Some(email), Some(hash), None, None))
            == Success(User(name, email, hash, PatientRole, true))
    ensures CreateAppointment(AppointmentInput(Some(time), None, None, None, None, None))
            == Success(Appointment(time, Booked, None, false, None, None))
    ensures CreatePrescription(None) == Success(Prescription(PrescriptionPending))
    ensures CreateBilling(None, None) == Success(Billing(None, BillPending))
    ensures CreateSosAlert(Some(3), None) == Success(SosAlert(3, SosPending))
  {
  }
}
