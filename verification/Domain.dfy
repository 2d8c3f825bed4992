/** The ticket system's entities: users, tickets and the enumerations they carry. */
module Domain {

  datatype Option<+T> = None | Some(value: T)

  function Pow16(width: nat): (p: nat)
    ensures p > 0
  {
    if width == 0 then 1 else 16 * Pow16(width - 1)
  }

  /** A UUID is a 128-bit number; PostgreSQL compares two of them as such. */
  type Uuid = n: nat | n < Pow16(32) witness 0

  datatype Role = Customer | Agent

  datatype User = User(id: Uuid, role: Role)

  datatype TicketStatus = Open | InProgress | Resolved | Closed

  datatype TicketPriority = Low | Medium | High

  datatype TicketCategory = Billing | Technical | General

  datatype Ticket = Ticket(
    id: Uuid,
    customerId: Uuid,
    title: string,
    description: string,
    category: TicketCategory,
    priority: TicketPriority,
    status: TicketStatus,
    createdAt: int,
    updatedAt: int)

  /** The committed ticket table, keyed by primary key. */
  type Tickets = m: map<Uuid, Ticket> | forall id :: id in m ==> m[id].id == id

  function StatusText(s: TicketStatus): string {
    match s
    case Open => "OPEN"
    case InProgress => "IN_PROGRESS"
    case Resolved => "RESOLVED"
    case Closed => "CLOSED"
  }

  function PriorityText(p: TicketPriority): string {
    match p
    case Low => "LOW"
    case Medium => "MEDIUM"
    case High => "HIGH"
  }

  function CategoryText(c: TicketCategory): string {
    match c
    case Billing => "BILLING"
    case Technical => "TECHNICAL"
    case General => "GENERAL"
  }
}
