/**
 * The Invitation record of project/api/models/invitation.py: who invited
 * which e-mail address, and the account that address registered, if any.
 */
module Invitations {
  import opened Wrappers
  import opened PyDict

  /** The primary key of an account. */
  type UserId = nat

  /**
   * The instant a `datetime` stands for; its time zone is not kept. This
   * core only formats it.
   */
  datatype Timestamp = Timestamp(microseconds: int)

  /** The two fields of the account model that this record reads. */
  datatype User = User(id: UserId, username: string, date_joined: Timestamp)

  /**
   * One invitation row. The foreign keys and the creation timestamp are
   * nullable, as declared; `None` stands for Python's `None`.
   */
  datatype Invitation = Invitation(
    host_user: Option<UserId>,
    invitee_email: string,
    verification_code: string,
    invitee_user: Option<User>,
    date_created: Option<Timestamp>)
  {
    /** The `date_registered` property: the invitee's join date once an account is linked. */
    function DateRegistered(): (r: Option<Timestamp>)
      ensures r.None? <==> invitee_user.None?
      ensures invitee_user.Some? ==> r == Some(invitee_user.value.date_joined)
    {
      if invitee_user.Some? then Some(invitee_user.value.date_joined) else None
    }
  }

  /**
   * Python's `str()` of a nullable timestamp: `dateStr` formats a `datetime`
   * (library behaviour, left uninterpreted) and `None` prints as "None".
   */
  function PyStr(t: Option<Timestamp>, dateStr: Timestamp -> string): string
  {
    match t
    case None => "None"
    case Some(d) => dateStr(d)
  }

  /** The six keys of a summary dictionary; `Name` is the string Python stores. */
  datatype SummaryKey = Email | Username | Registered | Invited | RecentActivity | Status
  {
    function Name(): string
    {
      match this
      case Email => "email"
      case Username => "username"
      case Registered => "date_registered"
      case Invited => "date_invited"
      case RecentActivity => "date_recent_activity"
      case Status => "status"
    }
  }

  /** The keys of a summary, in the order the dictionary holds them. */
  const SummaryKeys: seq<SummaryKey> := [Email, Username, Registered, Invited, RecentActivity, Status]

  type Summary = Dict<SummaryKey, string>

  /** Every summary key is listed in `SummaryKeys`. */
  lemma SummaryKeysComplete(k: SummaryKey)
    ensures k in SummaryKeys
  {
  }

  /** Different keys have different names, so no two summary entries collide. */
  lemma SummaryKeyNamesDistinct(a: SummaryKey, b: SummaryKey)
    ensures a.Name() == b.Name() <==> a == b
  {
  }

  /**
   * A dictionary that lists the six keys in summary order and stores a value
   * under each is a well-formed dict: its listed keys are exactly its stored ones.
   */
  lemma SummaryShapeIsValid(data: Summary)
    requires data.order == SummaryKeys
    requires forall k :: Get(data, k).Some?
    ensures data.Valid()
  {
    forall k ensures k in data.entries <==> k in data.order {
      assert Get(data, k).Some?;
      SummaryKeysComplete(k);
    }
  }

  /**
   * The dictionary display that `summarize` starts from: the e-mail address,
   * the creation date, and empty placeholders for the rest.
   */
  function SummaryDisplay(inv: Invitation, dateStr: Timestamp -> string): (data: Summary)
    ensures data.order == SummaryKeys[..5]
    ensures Get(data, Email) == Some(inv.invitee_email)
    ensures Get(data, Username) == Some("")
    ensures Get(data, Registered) == Some("")
    ensures Get(data, Invited) == Some(PyStr(inv.date_created, dateStr))
    ensures Get(data, RecentActivity) == Some("")
    ensures Get(data, Status) == None
  {
    // A dictionary display inserts its entries one after another.
    var withEmail := Set(Empty(), Email, inv.invitee_email);
    var withUsername := Set(withEmail, Username, "");
    var withRegistered := Set(withUsername, Registered, "");
    var withInvited := Set(withRegistered, Invited, PyStr(inv.date_created, dateStr));
    Set(withInvited, RecentActivity, "")
  }

  /**
   * `Invitation.summarize`: the display dictionary of one invitation. The
   * branch on `invitee_user` adds the status and, for a registered invitee,
   * overwrites the username and the registration date in place.
   */
  method Summarize(inv: Invitation, dateStr: Timestamp -> string) returns (data: Summary)
    ensures data.order == SummaryKeys && data.Valid()
    ensures forall k :: Get(data, k).Some?
    ensures Get(data, Email) == Some(inv.invitee_email)
    ensures inv.date_created.None? ==> Get(data, Invited) == Some("None")
    ensures inv.date_created.Some? ==> Get(data, Invited) == Some(dateStr(inv.date_created.value))
    ensures Get(data, RecentActivity) == Some("")
    ensures Get(data, Status) == Some("registered") <==> inv.invitee_user.Some?
    ensures Get(data, Status) == Some("sent") <==> inv.invitee_user.None?
    ensures inv.invitee_user.None? ==> Get(data, Username) == Some("") && Get(data, Registered) == Some("")
    ensures inv.invitee_user.Some? ==>
              && Get(data, Username) == Some(inv.invitee_user.value.username)
              && Get(data, Registered) == Some(PyStr(inv.DateRegistered(), dateStr))
              && Get(data, Registered) == Some(dateStr(inv.invitee_user.value.date_joined))
  {
    data := SummaryDisplay(inv, dateStr);
    if inv.invitee_user.Some? {
      data := Set(data, Status, "registered");
      data := Set(data, Username, inv.invitee_user.value.username);
      data := Set(data, Registered, PyStr(inv.DateRegistered(), dateStr));
    } else {
      data := Set(data, Status, "sent");
    }
    forall k ensures Get(data, k).Some? {
      match k
      case Email =>
      case Username =>
      case Registered =>
      case Invited =>
      case RecentActivity =>
      case Status =>
    }
    SummaryShapeIsValid(data);
  }
}
