# Invitation bookkeeping of OpenCiviWiki, in Dafny

This project models the invitation model of OpenCiviWiki's API
(`project/api/models/invitation.py`). A host account invites an e-mail
address. The invitation stores a verification code. Once the invitee signs
up, it links to the invitee's account. The model covers:

- the `Invitation` row, as a datatype with the five declared fields;
- the `date_registered` property: the invitee's join date, or `None`;
- `summarize()`: the six-key display dictionary of one invitation. It is an
  imperative method over a Python dict that keeps insertion order
  (module `PyDict`);
- the two `InvitationManager` queries, `filter_by_host` and
  `get_registered_invitees`, as filters over the invitation table.

The table is the sequence of its rows in storage order. A queryset has no
order without `order_by`, so each query result is described by its
multiset: how often each row occurs in it.

Files: `wrappers.dfy` (Python's `None` as `Option`), `py_dict.dfy`
(Python dict), `invitation.dfy` (the row, `date_registered`, `summarize`),
`invitation_manager.dfy` (the two queries and their lemmas).

Modelling decisions:

- `str()` of a `datetime` is library behaviour. `Summarize` takes it as the
  parameter `dateStr`. `date_created` is declared `auto_now_add=True`, which
  fills it only on the first save, so a row that was never saved holds
  `None` there. Python's `str(None)` gives `"None"` (`PyStr`).
- `if self.invitee_user:` and `if host_user:` test for `None`. A Django
  model instance has no `__bool__` or `__len__`, so every account object is
  truthy. A host is therefore `Option<UserId>`, and `filter(host_user=...)`
  compares primary keys.
- The summary's keys are the six values of `SummaryKey`. `SummaryKey.Name`
  gives the string Python stores, and `SummaryKeyNamesDistinct` proves that
  different keys have different names.
- `get_registered_invitees` filters on `registered=True`. `Invitation`
  declares no `registered` field. The model does not guess what that lookup
  means: it is the parameter `registered`, a condition on one row. The
  class docstring speaks of "registration status", and `date_registered`
  tests `invitee_user`, but no code defines the `registered` lookup.

## Model

| member | source | states |
|---|---|---|
| `Invitations.Invitation.DateRegistered` | project/api/models/invitation.py:67-73 | `date_registered` is `None` exactly when no invitee account is linked; otherwise it is that account's `date_joined` |
| `Invitations.Summarize` | project/api/models/invitation.py:75-91 | the summary lists exactly the six keys `email`, `username`, `date_registered`, `date_invited`, `date_recent_activity`, `status`, in that order, each with a value, and it is a well-formed dict (every key listed once). `status` is `"registered"` if and only if an invitee is linked, and `"sent"` if and only if none is. With no invitee, `username` and `date_registered` are `""`. With one, they are the invitee's username and `str(date_registered)`, which is `dateStr` of the invitee's `date_joined`. In every case `email` is the invitee e-mail and `date_recent_activity` is `""`. `date_invited` is `"None"` for a row never saved, and otherwise `dateStr` of `date_created` |
| `Invitations.SummaryDisplay` | project/api/models/invitation.py:76-82 | the dictionary display starts the summary with five keys in display order. `email` is the invitee e-mail and `date_invited` is `str(date_created)`. `username`, `date_registered` and `date_recent_activity` are `""`, and there is no `status` key yet |
| `Invitations.SummaryShapeIsValid` | project/api/models/invitation.py:76-89 | a dict whose order lists the six summary keys and which stores a value under every key is a well-formed dict: it stores exactly the listed keys, each listed once |
| `Invitations.SummaryKeysComplete` | project/api/models/invitation.py:76-85 | every summary key occurs in the summary order |
| `Invitations.SummaryKeyNamesDistinct` | project/api/models/invitation.py:77-85 | two summary keys have the same string name only if they are the same key, so no two entries overwrite each other |
| `PyDict.Set` | project/api/models/invitation.py:84-89 | `data[key] = value` stores the value under the key and leaves every other key's value alone. A key already present keeps its place; a new key goes last |
| `PyDict.SetKeepsValid` | project/api/models/invitation.py:84-89 | assignment keeps every stored key listed exactly once |
| `InvitationManager.Where` | project/api/models/invitation.py:25 | `queryset.filter(cond)` keeps each row that meets the condition as often as the table holds it, and drops all other rows |
| `InvitationManager.FilterByHost` | project/api/models/invitation.py:16-29 | with no host, the result is the whole table. With a host, every row whose `host_user` is that host is kept as often as it is stored, and no other row is kept |
| `InvitationManager.GetRegisteredInvitees` | project/api/models/invitation.py:31-44 | a row is kept, as often as it is stored, exactly when it passes the `registered` lookup and, if a host is given, its `host_user` is that host |
| `InvitationManager.FilterByHostExactly` | project/api/models/invitation.py:24-27 | a row is in `filter_by_host(h)` if and only if it is in the table and `h` is its host; the result is a sub-multiset of the table |
| `InvitationManager.FilterByHostPartition` | project/api/models/invitation.py:24-27 | the table is the multiset union of the host's invitations and all other invitations, so filtering loses no row and invents none |
| `InvitationManager.FilterByHostIdempotent` | project/api/models/invitation.py:16-29 | filtering the result of `filter_by_host(h)` by `h` again gives the same rows |
| `InvitationManager.RegisteredInviteesNarrowHost` | project/api/models/invitation.py:39-42 | `get_registered_invitees(h)` is `filter_by_host(h)` narrowed by the `registered` lookup, with or without a host, and so a sub-multiset of it |

## Left out

- InvitationManager.GetRegisteredInvitees: takes the meaning of `registered=True` as a parameter. `Invitation` declares no `registered` field, so Django rejects that lookup with a `FieldError` when the query is built. The model does not reproduce that error.
- Invitations.Invitation: `invitee_email` is always a string. The field is declared `EmailField(default=None, null=False)`, so a row built without an e-mail and never saved holds `None`, and `summarize()` stores that `None` under `"email"`. The model does not represent that case.
- Invitations.Summarize: the summary's keys are `SummaryKey` values, not raw strings. `SummaryKey.Name` gives the string for each key.
- Query execution, database access and `get_user_model()`: the ORM is not part of this model. The table is an explicit sequence of rows.
- Result order of the queries: a queryset without `order_by` has none, so only multisets are stated.
- Formatting a `datetime` with `str()`: library behaviour, taken as the parameter `dateStr`. A `Timestamp` keeps only the instant, not the time zone or `fold`, so two datetimes that differ only in time zone print the same here, although Python's `str()` shows the UTC offset.
- `Invitation.__str__` and `Rebuttal.__str__`: they reflect over Django's field metadata.
- `project/api/models/rebuttal.py`: a schema with no operation that reads or changes state.
- Framework-enforced field rules: `on_delete=models.PROTECT`, `auto_now_add`, `EmailField` validation and `max_length`. Django and the database enforce them; no code in this core does.
- `summarize` does not change the row: rows are immutable values here, so no operation can change one.
