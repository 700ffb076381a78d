/**
 * The hosted backend's tables held in memory: project applications,
 * projects, profile details (names and profile fields), profiles (account
 * e-mail), project chat messages, and an outbox of the e-mails the
 * functions have handed to the e-mail API.
 */
module Backend {
  import opened Common

  /** A row key (a UUID in the deployed database). */
  type Id = string

  /** An `updated_at` value; its format is not modelled. */
  type Timestamp = string

  /** The lifecycle of an application: created pending, then accepted or rejected. */
  datatype Status = Pending | Accepted | Rejected {

    /** The text stored in the `status` column. */
    function Name(): string {
      match this
      case Pending => "pending"
      case Accepted => "accepted"
      case Rejected => "rejected"
    }
  }

  /** A row of `project_applications` (its key is the map key). */
  datatype Application = Application(
    projectId: Id,
    applicantId: Id,
    message: string,
    status: Status,
    updatedAt: Timestamp)

  /** The columns of `projects` the workflow reads. */
  datatype Project = Project(creatorId: Id, title: string)

  /** A row of `profile_details`; every column is nullable. */
  datatype Person = Person(
    firstName: Option<string>,
    lastName: Option<string>,
    title: Option<string>,
    location: Option<string>,
    skills: Option<seq<string>>,
    industry: Option<string>,
    education: Option<string>,
    experience: Option<string>,
    bio: Option<string>)

  /** A `profile_details` row that holds only a name. */
  function NamedPerson(first: Option<string>, last: Option<string>): Person {
    Person(first, last, None, None, None, None, None, None, None)
  }

  /** A row of `profiles`: the account e-mail. */
  datatype Account = Account(email: Option<string>)

  /** A row of `project_chat_messages`. */
  datatype ChatMessage = ChatMessage(projectId: Id, senderId: Id, content: string)

  /**
   * An e-mail handed to the e-mail API: recipient, subject, the links in its
   * body, and the person its body names (owner or greeting name).
   */
  datatype Email = Email(to: string, subject: string, links: seq<string>, named: string)

  datatype Store = Store(
    applications: map<Id, Application>,
    projects: map<Id, Project>,
    details: map<Id, Person>,
    accounts: map<Id, Account>,
    chat: seq<ChatMessage>,
    outbox: seq<Email>)

  /** The application `id` exists and is still pending. */
  predicate IsPending(s: Store, id: Id) {
    id in s.applications && s.applications[id].status == Pending
  }

  /**
   * `update({status[, updated_at]}).eq("id", id)` on `project_applications`:
   * only the row `id` changes, and only its status and (when a stamp is
   * given) its `updated_at`. An update that matches no row changes nothing
   * and is not an error.
   */
  function SetStatus(s: Store, id: Id, status: Status, stamp: Option<Timestamp>): (r: Store)
    ensures r.applications.Keys == s.applications.Keys
    ensures forall k :: k in s.applications && k != id ==> r.applications[k] == s.applications[k]
    ensures id in s.applications ==>
              && r.applications[id].status == status
              && r.applications[id].projectId == s.applications[id].projectId
              && r.applications[id].applicantId == s.applications[id].applicantId
              && r.applications[id].message == s.applications[id].message
              && r.applications[id].updatedAt == stamp.GetOr(s.applications[id].updatedAt)
    ensures id !in s.applications ==> r == s
    ensures r.(applications := s.applications) == s
  {
    if id in s.applications then
      var a := s.applications[id];
      s.(applications := s.applications[id := a.(status := status, updatedAt := stamp.GetOr(a.updatedAt))])
    else
      s
  }

  /** Writing the same status twice has the effect of writing it once. */
  lemma SetStatusIdempotent(s: Store, id: Id, status: Status, stamp: Option<Timestamp>)
    ensures SetStatus(SetStatus(s, id, status, stamp), id, status, stamp) == SetStatus(s, id, status, stamp)
  {
  }

  /** Of two status writes to one row, the later one decides the status. */
  lemma {:induction false} SetStatusLastWins(s: Store, id: Id, first: Status, second: Status, stamp1: Option<Timestamp>, stamp2: Option<Timestamp>)
    requires id in s.applications
    ensures SetStatus(SetStatus(s, id, first, stamp1), id, second, stamp2).applications[id].status == second
    ensures SetStatus(SetStatus(s, id, first, stamp1), id, second, stamp2).applications.Keys == s.applications.Keys
  {
  }
}
