/**
 * The records of the clinic application (src/types/index.ts), as values.
 * Timestamps are integers (milliseconds since the epoch); the `Date`
 * objects of the application are represented by that number.
 * `EditableText` and `ChatMessage` are the two records the simple
 * storage module keeps; they carry only the fields that module touches.
 */
module Types {

  datatype Option<T> = None | Some(value: T)

  datatype Result<T, E> = Ok(value: T) | Err(error: E)

  // Users and authentication

  datatype UserRole = Admin | TechSupport | PatientRole

  datatype User = User(
    id: string,
    username: string,
    role: UserRole,
    createdAt: int,
    lastLogin: int,
    isActive: bool)

  datatype AuthResult = AuthResult(
    success: bool,
    user: Option<User>,
    token: Option<string>,
    error: Option<string>)

  // Patients and appointments

  datatype Patient = Patient(
    id: string,
    name: string,
    age: int,
    phone: string,
    condition: string,
    createdAt: int,
    updatedAt: int)

  datatype AppointmentStatus = Pending | Confirmed | Cancelled | Completed | NoShow

  datatype Appointment = Appointment(
    id: string,
    patientId: string,
    patient: Patient,          // snapshot of the patient taken at booking time
    appointmentDate: int,
    appointmentTime: string,   // "HH:MM"
    status: AppointmentStatus,
    notes: string,
    createdAt: int,
    updatedAt: int)

  // Messages and chat

  datatype MessageType =
    | AppointmentConfirmation
    | AppointmentReminder
    | HealthGuidance
    | GeneralMessage
    | ChatMessageType

  datatype Message = Message(
    id: string,
    senderId: string,
    recipientId: string,       // the recipient's phone number
    content: string,
    messageType: MessageType,
    appointmentId: Option<string>,
    isRead: bool,
    sentAt: int)

  datatype ChatSession = ChatSession(
    id: string,
    patientPhone: string,
    isActive: bool,
    createdAt: int,
    lastMessageAt: int,
    messages: seq<Message>)

  // System content

  datatype ContentType = Text | Html | Configuration | Template

  datatype SystemContent = SystemContent(
    id: string,
    contentKey: string,
    contentValue: string,
    contentType: ContentType,
    updatedBy: string,
    updatedAt: int)

  // Inputs of the service operations

  datatype BookingFormData = BookingFormData(
    name: string,
    age: int,
    phone: string,
    condition: string)

  /** Each present field narrows the listing; `date` is compared by day. */
  datatype AppointmentFilters = AppointmentFilters(
    date: Option<int>,
    status: Option<AppointmentStatus>,
    patientName: Option<string>)

  datatype MessageData = MessageData(
    recipientPhone: string,
    content: string,
    messageType: MessageType,
    appointmentId: Option<string>)

  // Records of the simple storage module

  datatype EditableText = EditableText(
    id: string,
    key: string,
    content: string,
    lastModified: string)      // an ISO-8601 time stamp

  datatype ChatMessage = ChatMessage(
    id: string,
    sender: string,
    content: string,
    timestamp: string)
}
