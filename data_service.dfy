/**
 * The clinic's main persistence service (src/services/dataService.ts):
 * patients, bookings, the outbound message log, chat sessions and the
 * editable system content, each a named collection of the browser's
 * key-value store that every operation reads, changes and writes back.
 *
 * The store is the `DataService` object: one field per key it owns
 * ('patients', 'appointments', 'messages', 'chatSessions',
 * 'systemContent'). A missing key reads as an empty collection, except
 * for 'systemContent', where absence triggers seeding; that field is an
 * Option. The private id generator is a supply `idOf` fixed at
 * construction together with a counter of ids already issued; the clock
 * is a parameter of each operation.
 */
module Data {
  import opened Types
  import opened Seqs

  // ---------------------------------------------------------------------
  // Dates, slots and text helpers

  const MillisPerDay := 86400000

  /** The calendar day a timestamp falls on (what toDateString compares). */
  function DayOf(t: int): int
  {
    t / MillisPerDay
  }

  function LowerChar(c: char): char
  {
    if 'A' <= c <= 'Z' then (c as int + 32) as char else c
  }

  /** String.prototype.toLowerCase, on the ASCII letters. */
  function Lower(s: string): (r: string)
    ensures |r| == |s|
    ensures forall k :: 0 <= k < |s| ==> r[k] == LowerChar(s[k])
  {
    seq(|s|, k requires 0 <= k < |s| => LowerChar(s[k]))
  }

  /** String.prototype.includes: `needle` starts at some position of `hay`. */
  predicate Includes(hay: string, needle: string)
    ensures needle == [] ==> Includes(hay, needle)
    ensures Includes(hay, needle) ==> |needle| <= |hay|
    decreases |hay|
  {
    needle <= hay || (hay != [] && Includes(hay[1..], needle))
  }

  /** `needle` occurs in `hay` starting at position `i`. */
  ghost predicate OccursAt(hay: string, needle: string, i: int)
  {
    0 <= i && i + |needle| <= |hay| && hay[i..i + |needle|] == needle
  }

  lemma {:induction false} IncludesOccurs(hay: string, needle: string)
    requires Includes(hay, needle)
    ensures exists i :: OccursAt(hay, needle, i)
    decreases |hay|
  {
    if needle <= hay {
      assert OccursAt(hay, needle, 0);
    } else {
      IncludesOccurs(hay[1..], needle);
      var i :| OccursAt(hay[1..], needle, i);
      assert hay[i + 1..i + 1 + |needle|] == hay[1..][i..i + |needle|];
      assert OccursAt(hay, needle, i + 1);
    }
  }

  lemma {:induction false} OccursIncludes(hay: string, needle: string, i: int)
    requires OccursAt(hay, needle, i)
    ensures Includes(hay, needle)
    decreases i
  {
    if i == 0 {
      assert needle == hay[..|needle|];
    } else {
      assert hay[1..][i - 1..i - 1 + |needle|] == hay[i..i + |needle|];
      OccursIncludes(hay[1..], needle, i - 1);
    }
  }

  /** `Includes` agrees with "`needle` occurs at some position of `hay`". */
  lemma IncludesIffOccurs(hay: string, needle: string)
    ensures Includes(hay, needle) <==> exists i :: OccursAt(hay, needle, i)
  {
    if Includes(hay, needle) {
      IncludesOccurs(hay, needle);
    }
    if exists i :: OccursAt(hay, needle, i) {
      var i :| OccursAt(hay, needle, i);
      OccursIncludes(hay, needle, i);
    }
  }

  function Digit(d: int): char
    requires 0 <= d < 10
  {
    "0123456789"[d]
  }

  function DigitValue(c: char): int
  {
    c as int - '0' as int
  }

  /** Number.prototype.toString of a natural number. */
  function DecimalString(n: nat): string
  {
    if n < 10 then [Digit(n)] else DecimalString(n / 10) + [Digit(n % 10)]
  }

  /** String.prototype.padStart(2, '0'). */
  function PadStart2(s: string): string
  {
    if |s| < 2 then seq(2 - |s|, _ => '0') + s else s
  }

  /**
   * The slot rule: before nine and from six in the evening the slot is
   * "09:00" (the date is not advanced); between, the next full hour.
   */
  function NextAvailableTime(hour: int): (r: string)
    ensures |r| == 5 && r[2..] == ":00"
    ensures '0' <= r[0] <= '9' && '0' <= r[1] <= '9'
    ensures DigitValue(r[0]) * 10 + DigitValue(r[1]) == if 9 <= hour < 18 then hour + 1 else 9
  {
    if hour < 9 then "09:00"
    else if hour >= 18 then "09:00"
    else
      var next := hour + 1;
      assert DecimalString(next) == [Digit(next / 10), Digit(next % 10)];
      PadStart2(DecimalString(next)) + ":00"
  }

  /** The slots for bookings made at hours 10, 17 and 19. */
  lemma SlotExamples()
    ensures NextAvailableTime(10) == "11:00"
    ensures NextAvailableTime(19) == "09:00"
    ensures NextAvailableTime(17) == "18:00"
  {
    assert DecimalString(11) == "11";
    assert DecimalString(18) == "18";
  }

  // ---------------------------------------------------------------------
  // Patients

  /** The record createPatient builds. */
  function NewPatient(data: BookingFormData, id: string, now: int): Patient
  {
    Patient(id, data.name, data.age, data.phone, data.condition, now, now)
  }

  function PhoneIs(phone: string): Patient -> bool
  {
    (p: Patient) => p.phone == phone
  }

  /** `patients.find(p => p.phone === phone)`: the first patient with that phone. */
  function FindPatient(ps: seq<Patient>, phone: string): (r: Option<Patient>)
    ensures r.None? <==> forall i :: 0 <= i < |ps| ==> ps[i].phone != phone
    ensures r.Some? ==> exists i :: (0 <= i < |ps| && ps[i] == r.value && r.value.phone == phone &&
      forall j :: 0 <= j < i ==> ps[j].phone != phone)
  {
    match FindFirst(ps, PhoneIs(phone))
    case Some(i) => Some(ps[i])
    case None => None
  }

  /** Number of patients with a given phone. */
  function CountPhone(ps: seq<Patient>, phone: string): nat
  {
    Count(ps, PhoneIs(phone))
  }

  /** The patient a booking uses: the first one with the phone, or a new one. */
  function BookedPatient(ps: seq<Patient>, data: BookingFormData, id: string, now: int): (r: Patient)
    ensures r.phone == data.phone
  {
    match FindPatient(ps, data.phone)
    case Some(p) => p
    case None => NewPatient(data, id, now)
  }

  /** The patient collection after a booking. */
  function PatientsAfterBooking(ps: seq<Patient>, data: BookingFormData, id: string, now: int): (r: seq<Patient>)
    ensures ps <= r && |r| <= |ps| + 1
    ensures |r| == |ps| + 1 <==> FindPatient(ps, data.phone).None?
  {
    if FindPatient(ps, data.phone).Some? then ps else ps + [NewPatient(data, id, now)]
  }

  /** No patient with the phone is found exactly when none is counted. */
  lemma FindPatientCount(ps: seq<Patient>, phone: string)
    ensures FindPatient(ps, phone).None? <==> CountPhone(ps, phone) == 0
  {
    CountZero(ps, PhoneIs(phone));
  }

  /**
   * A booking adds a patient exactly when none has the phone, and the
   * patient it uses is the one every later lookup by that phone finds.
   */
  lemma BookingReusesPatient(ps: seq<Patient>, data: BookingFormData, id: string, now: int)
    ensures BookedPatient(ps, data, id, now).phone == data.phone
    ensures FindPatient(PatientsAfterBooking(ps, data, id, now), data.phone) == Some(BookedPatient(ps, data, id, now))
    ensures CountPhone(PatientsAfterBooking(ps, data, id, now), data.phone) ==
      if CountPhone(ps, data.phone) == 0 then 1 else CountPhone(ps, data.phone)
    ensures forall q :: q != data.phone ==>
      CountPhone(PatientsAfterBooking(ps, data, id, now), q) == CountPhone(ps, q)
  {
    FindPatientCount(ps, data.phone);
    if FindPatient(ps, data.phone).None? {
      BookingAddsPatient(ps, data, id, now);
    }
  }

  lemma BookingAddsPatient(ps: seq<Patient>, data: BookingFormData, id: string, now: int)
    requires FindPatient(ps, data.phone).None?
    ensures var p := NewPatient(data, id, now);
      && FindPatient(ps + [p], data.phone) == Some(p)
      && CountPhone(ps + [p], data.phone) == CountPhone(ps, data.phone) + 1
      && forall q :: q != data.phone ==> CountPhone(ps + [p], q) == CountPhone(ps, q)
  {
    var p := NewPatient(data, id, now);
    FilterAppend(ps, [p], PhoneIs(data.phone));
    FindFirstAppend(ps, [p], PhoneIs(data.phone));
    assert FindFirst([p], PhoneIs(data.phone)) == Some(0);
    assert (ps + [p])[|ps|] == p;
    forall q | q != data.phone
      ensures CountPhone(ps + [p], q) == CountPhone(ps, q)
    {
      FilterAppend(ps, [p], PhoneIs(q));
    }
  }

  /**
   * Two bookings with the same phone share one patient record: the second
   * embeds the same snapshot as the first and adds no patient.
   */
  lemma TwoBookingsOnePatient(ps: seq<Patient>, d1: BookingFormData, d2: BookingFormData,
                              id1: string, id2: string, t1: int, t2: int)
    requires d1.phone == d2.phone
    ensures var ps1 := PatientsAfterBooking(ps, d1, id1, t1);
      && BookedPatient(ps1, d2, id2, t2) == BookedPatient(ps, d1, id1, t1)
      && PatientsAfterBooking(ps1, d2, id2, t2) == ps1
      && CountPhone(PatientsAfterBooking(ps1, d2, id2, t2), d1.phone) ==
           if CountPhone(ps, d1.phone) == 0 then 1 else CountPhone(ps, d1.phone)
  {
    BookingReusesPatient(ps, d1, id1, t1);
  }

  // ---------------------------------------------------------------------
  // Appointments

  /** The sort key of the appointment listing. */
  function CreatedAt(a: Appointment): int
  {
    a.createdAt
  }

  function SameDayAs(date: int): Appointment -> bool
  {
    (a: Appointment) => DayOf(a.appointmentDate) == DayOf(date)
  }

  function StatusIs(status: AppointmentStatus): Appointment -> bool
  {
    (a: Appointment) => a.status == status
  }

  /** Case-insensitive substring match on the embedded patient's name. */
  function NameContains(query: string): Appointment -> bool
  {
    (a: Appointment) => Includes(Lower(a.patient.name), Lower(query))
  }

  /** The listing filters, read as one condition on an appointment. */
  predicate MatchesFilters(a: Appointment, filters: Option<AppointmentFilters>)
  {
    match filters
    case None => true
    case Some(f) =>
      && (f.date.None? || SameDayAs(f.date.value)(a))
      && (f.status.None? || StatusIs(f.status.value)(a))
      && (f.patientName.None? || f.patientName.value == "" || NameContains(f.patientName.value)(a))
  }

  /**
   * The filters as the service applies them: date, then status, then
   * name; an absent or empty filter is skipped.
   */
  function ApplyFilters(s: seq<Appointment>, filters: Option<AppointmentFilters>): (r: seq<Appointment>)
    ensures |r| <= |s|
    ensures forall a :: a in r ==> a in s && MatchesFilters(a, filters)
  {
    match filters
    case None => s
    case Some(f) =>
      var byDate := if f.date.Some? then Filter(s, SameDayAs(f.date.value)) else s;
      var byStatus := if f.status.Some? then Filter(byDate, StatusIs(f.status.value)) else byDate;
      if f.patientName.Some? && f.patientName.value != "" then Filter(byStatus, NameContains(f.patientName.value))
      else byStatus
  }

  /** Applying the filters one after another is filtering by their conjunction. */
  lemma ApplyFiltersMatches(s: seq<Appointment>, filters: Option<AppointmentFilters>)
    ensures ApplyFilters(s, filters) == Filter(s, (a: Appointment) => MatchesFilters(a, filters))
  {
    var m := (a: Appointment) => MatchesFilters(a, filters);
    match filters
    case None =>
      FilterAll(s, m);
    case Some(f) =>
      var d := if f.date.Some? then f.date.value else 0;
      var st := if f.status.Some? then f.status.value else Pending;
      var q := if f.patientName.Some? then f.patientName.value else "";
      var pd := (a: Appointment) => f.date.None? || SameDayAs(d)(a);
      var ps := (a: Appointment) => f.status.None? || StatusIs(st)(a);
      var pn := (a: Appointment) => !(f.patientName.Some? && q != "") || NameContains(q)(a);
      var pds := (a: Appointment) => pd(a) && ps(a);
      OptionalFilter(s, f.date.Some?, SameDayAs(d), pd);
      var byDate := Filter(s, pd);
      OptionalFilter(byDate, f.status.Some?, StatusIs(st), ps);
      FilterTwice(s, pd, ps, pds);
      var byStatus := Filter(s, pds);
      OptionalFilter(byStatus, f.patientName.Some? && q != "", NameContains(q), pn);
      FilterTwice(s, pds, pn, m);
  }

  // ---------------------------------------------------------------------
  // Messages

  /** The sort key of the message log. */
  function SentAt(m: Message): int
  {
    m.sentAt
  }

  /** The record sendMessage builds: sent by the clinic, unread. */
  function SentMessage(id: string, data: MessageData, now: int): Message
  {
    Message(id, "clinic", data.recipientPhone, data.content, data.messageType, data.appointmentId, false, now)
  }

  /** The text of the booking confirmation sent to a patient. */
  function ConfirmationText(name: string): string
  {
    "مرحباً " + name + "، تم حجز موعدك بنجاح. سيتم التواصل معك قريباً لتأكيد الموعد."
  }

  /** The confirmation createAppointment sends for `a`, to its patient's phone. */
  function Confirmation(a: Appointment): MessageData
  {
    MessageData(a.patient.phone, ConfirmationText(a.patient.name), AppointmentConfirmation, Some(a.id))
  }

  // ---------------------------------------------------------------------
  // Chat sessions

  datatype ChatError = SessionNotFound

  /** `sessions.find(s => s.id === id)`, as an index. */
  function SessionIndex(ss: seq<ChatSession>, id: string): (r: Option<nat>)
    ensures r.None? <==> forall j :: 0 <= j < |ss| ==> ss[j].id != id
    ensures r.Some? ==> (r.value < |ss| && ss[r.value].id == id &&
      forall j :: 0 <= j < r.value ==> ss[j].id != id)
  {
    FindFirst(ss, (s: ChatSession) => s.id == id)
  }

  /** A session whose recency stamp is not older than its creation or any message. */
  ghost predicate RecencyHolds(s: ChatSession)
  {
    s.createdAt <= s.lastMessageAt &&
    forall k :: 0 <= k < |s.messages| ==> s.messages[k].sentAt <= s.lastMessageAt
  }

  /** The session after `m` is appended to it at time `now`. */
  function AppendToSession(s: ChatSession, m: Message, now: int): (r: ChatSession)
    ensures r.id == s.id && r.patientPhone == s.patientPhone && r.isActive == s.isActive && r.createdAt == s.createdAt
    ensures |r.messages| == |s.messages| + 1 && r.messages[..|s.messages|] == s.messages
    ensures r.messages[|s.messages|] == m && r.lastMessageAt == now
  {
    s.(messages := s.messages + [m], lastMessageAt := now)
  }

  /**
   * Appending a message stamped `now` keeps the recency invariant when the
   * clock has not gone back, and makes the session's stamp the message's.
   */
  lemma AppendKeepsRecency(s: ChatSession, m: Message, now: int)
    requires RecencyHolds(s) && s.lastMessageAt <= now && m.sentAt == now
    ensures RecencyHolds(AppendToSession(s, m, now))
    ensures AppendToSession(s, m, now).lastMessageAt == m.sentAt
    ensures |AppendToSession(s, m, now).messages| == |s.messages| + 1
  {
    var t := AppendToSession(s, m, now);
    forall k | 0 <= k < |t.messages|
      ensures t.messages[k].sentAt <= t.lastMessageAt
    {
      if k < |s.messages| { assert t.messages[k] == s.messages[k]; }
    }
  }

  // ---------------------------------------------------------------------
  // System content

  /** The index of the first entry with a key. */
  function ContentIndex(cs: seq<SystemContent>, key: string): (r: Option<nat>)
    ensures r.None? <==> forall j :: 0 <= j < |cs| ==> cs[j].contentKey != key
    ensures r.Some? ==> (r.value < |cs| && cs[r.value].contentKey == key &&
      forall j :: 0 <= j < r.value ==> cs[j].contentKey != key)
  {
    FindFirst(cs, (c: SystemContent) => c.contentKey == key)
  }

  ghost predicate UniqueKeys(cs: seq<SystemContent>)
  {
    forall i, j :: 0 <= i < j < |cs| ==> cs[i].contentKey != cs[j].contentKey
  }

  /** The three entries written when no content is stored yet. */
  function DefaultContent(id1: string, id2: string, id3: string, now: int): (r: seq<SystemContent>)
    ensures |r| == 3 && UniqueKeys(r)
    ensures r[0].contentKey == "clinic_name" && r[1].contentKey == "welcome_message" && r[2].contentKey == "clinic_hours"
    ensures forall k :: 0 <= k < 3 ==> r[k].contentType == Text && r[k].updatedBy == "system" && r[k].updatedAt == now
  {
    [ SystemContent(id1, "clinic_name", "عيادة الدكتور مصطفى اليوسف", Text, "system", now),
      SystemContent(id2, "welcome_message", "مرحباً بكم في عيادة الدكتور مصطفى اليوسف. نحن هنا لخدمتكم.", Text, "system", now),
      SystemContent(id3, "clinic_hours", "ساعات العمل: من 9 صباحاً إلى 6 مساءً", Text, "system", now) ]
  }

  /** Set the entry with `key` in place, or append a new TEXT entry. */
  function Upsert(cs: seq<SystemContent>, key: string, value: string, user: string, newId: string, now: int)
    : (r: seq<SystemContent>)
    ensures |r| == |cs| + (if ContentIndex(cs, key).None? then 1 else 0)
    ensures forall j :: 0 <= j < |cs| && cs[j].contentKey != key ==> r[j] == cs[j]
  {
    match ContentIndex(cs, key)
    case Some(i) => cs[i := cs[i].(contentValue := value, updatedBy := user, updatedAt := now)]
    case None => cs + [SystemContent(newId, key, value, Text, user, now)]
  }

  /**
   * An upsert changes the entry with the key in place (same position, same
   * count) or appends one; either way the first entry with the key then
   * has the new value and attribution, every other entry is unchanged.
   */
  lemma UpsertEffect(cs: seq<SystemContent>, key: string, value: string, user: string, newId: string, now: int)
    ensures var r := Upsert(cs, key, value, user, newId, now);
      && ContentIndex(r, key).Some?
      && var i := ContentIndex(r, key).value;
      && r[i].contentKey == key && r[i].contentValue == value && r[i].updatedBy == user && r[i].updatedAt == now
      && (ContentIndex(cs, key).Some? ==>
            i == ContentIndex(cs, key).value && |r| == |cs| &&
            r[i].id == cs[i].id && r[i].contentType == cs[i].contentType &&
            forall j :: 0 <= j < |cs| && j != i ==> r[j] == cs[j])
      && (ContentIndex(cs, key).None? ==>
            r == cs + [SystemContent(newId, key, value, Text, user, now)])
  {
    var r := Upsert(cs, key, value, user, newId, now);
    match ContentIndex(cs, key)
    case Some(i) =>
      assert r[i].contentKey == key;
      assert forall j :: 0 <= j < i ==> r[j].contentKey != key;
    case None =>
      assert r[|cs|].contentKey == key;
      assert forall j :: 0 <= j < |cs| ==> r[j].contentKey != key;
  }

  /** An upsert never introduces a second entry with the same key. */
  lemma UpsertKeepsKeysUnique(cs: seq<SystemContent>, key: string, value: string, user: string, newId: string, now: int)
    requires UniqueKeys(cs)
    ensures UniqueKeys(Upsert(cs, key, value, user, newId, now))
  {
    var r := Upsert(cs, key, value, user, newId, now);
    match ContentIndex(cs, key)
    case Some(i) =>
      assert forall j :: 0 <= j < |r| ==> r[j].contentKey == cs[j].contentKey;
    case None =>
      assert forall j :: 0 <= j < |cs| ==> r[j] == cs[j];
  }

  /**
   * Two upserts of one key leave exactly one entry with that key, holding
   * the second value and the second attribution.
   */
  lemma UpsertTwice(cs: seq<SystemContent>, key: string, v1: string, u1: string, id1: string, t1: int,
                    v2: string, u2: string, id2: string, t2: int)
    requires UniqueKeys(cs)
    ensures var r := Upsert(Upsert(cs, key, v1, u1, id1, t1), key, v2, u2, id2, t2);
      && UniqueKeys(r)
      && (exists i :: 0 <= i < |r| && r[i].contentKey == key)
      && forall i :: 0 <= i < |r| && r[i].contentKey == key ==> r[i].contentValue == v2 && r[i].updatedBy == u2
  {
    var r1 := Upsert(cs, key, v1, u1, id1, t1);
    var r := Upsert(r1, key, v2, u2, id2, t2);
    UpsertKeepsKeysUnique(cs, key, v1, u1, id1, t1);
    UpsertKeepsKeysUnique(r1, key, v2, u2, id2, t2);
    UpsertEffect(r1, key, v2, u2, id2, t2);
    var i := ContentIndex(r, key).value;
    assert r[i].contentKey == key;
  }

  // ---------------------------------------------------------------------
  // The service

  class DataService {
    /** The fresh-id supply standing in for time plus randomness. */
    const idOf: nat -> string
    /** How many ids have been drawn from the supply. */
    var issued: nat

    var patients: seq<Patient>
    var appointments: seq<Appointment>
    var messages: seq<Message>
    var chatSessions: seq<ChatSession>
    var systemContent: Option<seq<SystemContent>>

    /** The service over a store holding the given collections. */
    constructor (idOf: nat -> string, patients: seq<Patient>, appointments: seq<Appointment>,
                 messages: seq<Message>, chatSessions: seq<ChatSession>,
                 systemContent: Option<seq<SystemContent>>)
      ensures this.idOf == idOf && issued == 0
      ensures this.patients == patients && this.appointments == appointments
      ensures this.messages == messages && this.chatSessions == chatSessions
      ensures this.systemContent == systemContent
    {
      this.idOf := idOf;
      issued := 0;
      this.patients := patients;
      this.appointments := appointments;
      this.messages := messages;
      this.chatSessions := chatSessions;
      this.systemContent := systemContent;
    }

    /** The `n`-th id of the supply. */
    function IdAt(n: nat): string { idOf(n) }

    method GenerateId() returns (id: string)
      modifies this`issued
      ensures id == IdAt(old(issued)) && issued == old(issued) + 1
    {
      id := IdAt(issued);
      issued := issued + 1;
    }

    // Patients

    method CreatePatient(data: BookingFormData, now: int) returns (patient: Patient)
      modifies this`issued, this`patients
      ensures patient == NewPatient(data, IdAt(old(issued)), now)
      ensures issued == old(issued) + 1
      ensures patients == old(patients) + [patient]
    {
      var id := GenerateId();
      patient := NewPatient(data, id, now);
      var ps := GetPatients();
      ps := ps + [patient];
      patients := ps;
    }

    function GetPatients(): (r: seq<Patient>)
      reads this
      ensures r == patients
    {
      patients
    }

    function GetPatientByPhone(phone: string): (r: Option<Patient>)
      reads this
      ensures r.None? <==> forall i :: 0 <= i < |patients| ==> patients[i].phone != phone
      ensures r.Some? ==> exists i :: (0 <= i < |patients| && patients[i] == r.value && r.value.phone == phone &&
        forall j :: 0 <= j < i ==> patients[j].phone != phone)
    {
      FindPatient(GetPatients(), phone)
    }

    // Appointments

    /** The patient with the booking's phone, created first when there is none. */
    method PatientFor(data: BookingFormData, now: int) returns (patient: Patient)
      modifies this`issued, this`patients
      ensures patient == BookedPatient(old(patients), data, IdAt(old(issued)), now)
      ensures patients == PatientsAfterBooking(old(patients), data, IdAt(old(issued)), now)
      ensures issued == old(issued) + (if FindPatient(old(patients), data.phone).None? then 1 else 0)
    {
      var found := GetPatientByPhone(data.phone);
      if found.None? {
        patient := CreatePatient(data, now);
      } else {
        patient := found.value;
      }
    }

    /**
     * Book: reuse or create the patient, append a PENDING appointment at
     * the slot for `hour`, then log the confirmation message. The list the
     * new appointment is appended to is the one the unfiltered listing
     * returns, already sorted newest first, and that order is what is
     * written back; the message log is rewritten the same way.
     */
    method CreateAppointment(data: BookingFormData, now: int, hour: int) returns (appointment: Appointment)
      modifies this`issued, this`patients, this`appointments, this`messages
      ensures patients == PatientsAfterBooking(old(patients), data, IdAt(old(issued)), now)
      ensures appointment.patient == BookedPatient(old(patients), data, IdAt(old(issued)), now)
      ensures appointment.patientId == appointment.patient.id
      ensures appointment.appointmentDate == now && appointment.appointmentTime == NextAvailableTime(hour)
      ensures appointment.status == Pending && appointment.notes == ""
      ensures appointment.createdAt == now && appointment.updatedAt == now
      ensures appointments == SortDesc(old(appointments), CreatedAt) + [appointment]
      ensures multiset(appointments) == multiset(old(appointments)) + multiset{appointment}
      ensures appointments[|appointments| - 1] == appointment
      ensures var first := old(issued) + (if FindPatient(old(patients), data.phone).None? then 1 else 0);
        && appointment.id == IdAt(first)
        && issued == first + 2
        && var m := SentMessage(IdAt(first + 1), Confirmation(appointment), now);
        && messages == SortDesc(old(messages), SentAt) + [m]
        && multiset(messages) == multiset(old(messages)) + multiset{m}
        && messages[|messages| - 1] == m
    {
      var p := PatientFor(data, now);
      appointment := BookFor(p, now, hour);
    }

    /** Book for the patient `p`, once found or created. */
    method BookFor(p: Patient, now: int, hour: int) returns (appointment: Appointment)
      modifies this`issued, this`appointments, this`messages
      ensures appointment == Appointment(IdAt(old(issued)), p.id, p, now, NextAvailableTime(hour), Pending, "", now, now)
      ensures issued == old(issued) + 2
      ensures appointments == SortDesc(old(appointments), CreatedAt) + [appointment]
      ensures multiset(appointments) == multiset(old(appointments)) + multiset{appointment}
      ensures appointments[|appointments| - 1] == appointment
      ensures var m := SentMessage(IdAt(old(issued) + 1), Confirmation(appointment), now);
        && messages == SortDesc(old(messages), SentAt) + [m]
        && multiset(messages) == multiset(old(messages)) + multiset{m}
        && messages[|messages| - 1] == m
    {
      var id := GenerateId();
      appointment := Appointment(id, p.id, p, now, NextAvailableTime(hour), Pending, "", now, now);
      StoreAppointment(appointment);
      var _ := SendMessage(Confirmation(appointment), now);
    }

    /**
     * Write back the unfiltered listing, newest first, with `appointment`
     * appended at the end.
     */
    method StoreAppointment(appointment: Appointment)
      modifies this`appointments
      ensures appointments == SortDesc(old(appointments), CreatedAt) + [appointment]
      ensures multiset(appointments) == multiset(old(appointments)) + multiset{appointment}
      ensures appointments[|appointments| - 1] == appointment
    {
      var apts := GetAppointments(None);
      SortThenAppend(appointments, CreatedAt, appointment);
      apts := apts + [appointment];
      appointments := apts;
    }

    /**
     * The stored appointments passing every present filter, most recently
     * created first.
     */
    function GetAppointments(filters: Option<AppointmentFilters>): (r: seq<Appointment>)
      reads this
      ensures forall a :: a in r <==> a in appointments && MatchesFilters(a, filters)
      ensures multiset(r) == multiset(Filter(appointments, (a: Appointment) => MatchesFilters(a, filters)))
      ensures forall i, j :: 0 <= i < j < |r| ==> r[i].createdAt >= r[j].createdAt
      ensures filters.None? ==> r == SortDesc(appointments, CreatedAt)
    {
      ApplyFiltersMatches(appointments, filters);
      var r := SortDesc(ApplyFilters(appointments, filters), CreatedAt);
      SortDescSorted(ApplyFilters(appointments, filters), CreatedAt);
      SortedDescPairwise(r, CreatedAt);
      SortDescPermutes(ApplyFilters(appointments, filters), CreatedAt);
      assert forall a :: a in r <==> a in multiset(r);
      r
    }

    // Messages

    /**
     * Log an outbound message: it is appended to the log as `GetMessages`
     * returns it, newest first, and that order is what is written back.
     */
    method SendMessage(data: MessageData, now: int) returns (message: Message)
      modifies this`issued, this`messages
      ensures message == SentMessage(IdAt(old(issued)), data, now)
      ensures message.senderId == "clinic" && !message.isRead && message.recipientId == data.recipientPhone
      ensures issued == old(issued) + 1
      ensures messages == SortDesc(old(messages), SentAt) + [message]
      ensures multiset(messages) == multiset(old(messages)) + multiset{message}
      ensures messages[|messages| - 1] == message
    {
      var id := GenerateId();
      message := SentMessage(id, data, now);
      var ms := GetMessages();
      SortThenAppend(messages, SentAt, message);
      ms := ms + [message];
      messages := ms;
    }

    /** Every stored message, most recently sent first. */
    function GetMessages(): (r: seq<Message>)
      reads this
      ensures multiset(r) == multiset(messages)
      ensures forall i, j :: 0 <= i < j < |r| ==> r[i].sentAt >= r[j].sentAt
    {
      var r := SortDesc(messages, SentAt);
      SortDescSorted(messages, SentAt);
      SortedDescPairwise(r, SentAt);
      SortDescPermutes(messages, SentAt);
      r
    }

    // Chat sessions

    method CreateChatSession(patientPhone: string, now: int) returns (session: ChatSession)
      modifies this`issued, this`chatSessions
      ensures session == ChatSession(IdAt(old(issued)), patientPhone, true, now, now, [])
      ensures RecencyHolds(session)
      ensures issued == old(issued) + 1
      ensures chatSessions == old(chatSessions) + [session]
    {
      var id := GenerateId();
      session := ChatSession(id, patientPhone, true, now, now, []);
      var ss := GetChatSessions();
      ss := ss + [session];
      chatSessions := ss;
    }

    function GetChatSessions(): (r: seq<ChatSession>)
      reads this
      ensures r == chatSessions
    {
      chatSessions
    }

    /**
     * Append a chat message to the first session with `sessionId`; an
     * unknown id is an error and nothing is written.
     */
    method SendChatMessage(sessionId: string, content: string, sender: string, now: int)
      returns (r: Result<Message, ChatError>)
      modifies this`issued, this`chatSessions
      ensures SessionIndex(old(chatSessions), sessionId).None? ==>
        r == Err(SessionNotFound) && chatSessions == old(chatSessions) && issued == old(issued)
      ensures SessionIndex(old(chatSessions), sessionId).Some? ==>
        var i := SessionIndex(old(chatSessions), sessionId).value;
        && r.Ok?
        && r.value == Message(IdAt(old(issued)), sender, old(chatSessions)[i].patientPhone, content,
                              ChatMessageType, None, false, now)
        && issued == old(issued) + 1
        && |chatSessions| == |old(chatSessions)|
        && chatSessions[i] == AppendToSession(old(chatSessions)[i], r.value, now)
        && (forall j :: 0 <= j < |chatSessions| && j != i ==> chatSessions[j] == old(chatSessions)[j])
        && (RecencyHolds(old(chatSessions)[i]) && old(chatSessions)[i].lastMessageAt <= now ==>
              RecencyHolds(chatSessions[i]))
    {
      var sessions := GetChatSessions();
      var found := SessionIndex(sessions, sessionId);
      if found.None? {
        return Err(SessionNotFound);
      }
      var i := found.value;
      var id := GenerateId();
      var message := Message(id, sender, sessions[i].patientPhone, content, ChatMessageType, None, false, now);
      sessions := sessions[i := sessions[i].(messages := sessions[i].messages + [message])];
      sessions := sessions[i := sessions[i].(lastMessageAt := now)];
      chatSessions := sessions;
      if RecencyHolds(old(chatSessions)[i]) && old(chatSessions)[i].lastMessageAt <= now {
        AppendKeepsRecency(old(chatSessions)[i], message, now);
      }
      r := Ok(message);
    }

    // System content

    ghost predicate ContentKeysUnique()
      reads this
    {
      systemContent.Some? ==> UniqueKeys(systemContent.value)
    }

    /** The stored content, after seeding the defaults if none is stored. */
    method GetSystemContent(now: int) returns (content: seq<SystemContent>)
      modifies this`issued, this`systemContent
      ensures old(systemContent).None? ==>
        content == DefaultContent(IdAt(old(issued)), IdAt(old(issued) + 1), IdAt(old(issued) + 2), now) &&
        issued == old(issued) + 3
      ensures old(systemContent).Some? ==> content == old(systemContent).value && issued == old(issued)
      ensures systemContent == Some(content)
      ensures old(ContentKeysUnique()) ==> ContentKeysUnique()
    {
      if systemContent.None? {
        var id1 := GenerateId();
        var id2 := GenerateId();
        var id3 := GenerateId();
        content := DefaultContent(id1, id2, id3, now);
        systemContent := Some(content);
        return;
      }
      content := systemContent.value;
    }

    /**
     * Set the value of the entry with `key`, or add one; returns the entry
     * written.
     */
    method UpdateSystemContent(key: string, value: string, userId: string, now: int)
      returns (item: SystemContent)
      modifies this`issued, this`systemContent
      ensures var seeded := old(systemContent).None?;
        var base := if seeded
          then DefaultContent(IdAt(old(issued)), IdAt(old(issued) + 1), IdAt(old(issued) + 2), now)
          else old(systemContent).value;
        var nextId := old(issued) + (if seeded then 3 else 0);
        && systemContent == Some(Upsert(base, key, value, userId, IdAt(nextId), now))
        && issued == nextId + (if ContentIndex(base, key).None? then 1 else 0)
      ensures systemContent.Some? && ContentIndex(systemContent.value, key).Some?
      ensures item == systemContent.value[ContentIndex(systemContent.value, key).value]
      ensures item.contentKey == key && item.contentValue == value && item.updatedBy == userId && item.updatedAt == now
      ensures old(ContentKeysUnique()) ==> ContentKeysUnique()
    {
      var content := GetSystemContent(now);
      ghost var base := content;
      ghost var nextId := issued;
      var found := ContentIndex(content, key);
      if found.Some? {
        var i := found.value;
        item := content[i].(contentValue := value, updatedBy := userId, updatedAt := now);
        content := content[i := item];
      } else {
        var id := GenerateId();
        item := SystemContent(id, key, value, Text, userId, now);
        content := content + [item];
      }
      systemContent := Some(content);
      UpsertEffect(base, key, value, userId, IdAt(nextId), now);
      if UniqueKeys(base) {
        UpsertKeepsKeysUnique(base, key, value, userId, IdAt(nextId), now);
      }
    }
  }

  /** `m` is a booking confirmation sent to `phone` for appointment `id`. */
  predicate IsConfirmation(m: Message, phone: string, id: string)
  {
    m.messageType == AppointmentConfirmation && m.recipientId == phone && m.appointmentId == Some(id)
  }

  /**
   * Two bookings with one phone, starting from a store with no patient of
   * that phone, leave exactly one patient with it, embedded in both
   * appointments.
   */
  method BookTwice(service: DataService, d1: BookingFormData, d2: BookingFormData,
                   now1: int, hour1: int, now2: int, hour2: int)
    returns (a1: Appointment, a2: Appointment)
    requires d1.phone == d2.phone
    requires forall i :: 0 <= i < |service.patients| ==> service.patients[i].phone != d1.phone
    modifies service`issued, service`patients, service`appointments, service`messages
    ensures a1.patient == a2.patient && a1.patient.phone == d1.phone
    ensures CountPhone(service.patients, d1.phone) == 1
    ensures multiset(service.appointments) == multiset(old(service.appointments)) + multiset{a1, a2}
    ensures service.appointments[|service.appointments| - 1] == a2
  {
    ghost var ps := service.patients;
    FindPatientCount(ps, d1.phone);
    a1 := service.CreateAppointment(d1, now1, hour1);
    ghost var id1 := service.IdAt(old(service.issued));
    a2 := service.CreateAppointment(d2, now2, hour2);
    TwoBookingsOnePatient(ps, d1, d2, id1, service.IdAt(old(service.issued) + 3), now1, now2);
    BookingReusesPatient(ps, d1, id1, now1);
  }

  /**
   * A booking at hour 10 gets the slot "11:00"; a later one at hour 19
   * gets "09:00" (of the same day). Each adds one PENDING appointment and
   * one confirmation addressed to the patient's phone: both are in the
   * log afterwards, the evening one last.
   */
  method BookingScenarios(service: DataService, data: BookingFormData, now: int, later: int)
    returns (morning: Appointment, evening: Appointment)
    modifies service`issued, service`patients, service`appointments, service`messages
    ensures morning.appointmentTime == "11:00"
    ensures evening.appointmentTime == "09:00" && evening.appointmentDate == later
    ensures morning.status == Pending && evening.status == Pending
    ensures |service.messages| == |old(service.messages)| + 2
    ensures exists k :: 0 <= k < |service.messages| && IsConfirmation(service.messages[k], data.phone, morning.id)
    ensures IsConfirmation(service.messages[|service.messages| - 1], data.phone, evening.id)
  {
    SlotExamples();
    ghost var ps := service.patients;
    ghost var id := service.IdAt(service.issued);
    BookingReusesPatient(ps, data, id, now);
    morning := service.CreateAppointment(data, now, 10);
    ghost var log := service.messages;
    ghost var m1 := log[|log| - 1];
    assert IsConfirmation(m1, data.phone, morning.id);
    ghost var ps1 := service.patients;
    ghost var id1 := service.IdAt(service.issued);
    BookingReusesPatient(ps1, data, id1, later);
    evening := service.CreateAppointment(data, later, 19);
    assert m1 in multiset(log);
    assert m1 in multiset(service.messages);
    ghost var k :| 0 <= k < |service.messages| && service.messages[k] == m1;
  }
}
