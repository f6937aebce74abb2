/** The Express server that keeps every user and note in two process-level arrays
    (backend/app.js). Each route handler becomes a member of `Server`: handlers that
    change the arrays are methods, handlers that only read them are functions. The
    HTTP status codes become the constructors of `Reply`. */
module InMemoryApi {
  import opened Seqs
  import opened Text
  import Aggregator

  datatype User = User(id: int, email: string, password: string, createdAt: string)

  datatype Note = Note(
    id: int,
    userId: int,
    userEmail: string,
    title: string,
    content: string,
    category: string,
    priority: string,
    createdAt: string,
    updatedAt: string)

  /** The identity `authenticateToken` decodes from the bearer token into `req.user`. */
  datatype Caller = Caller(id: int, email: string)

  /** The `{ id, email }` user object that register, login and profile send back. */
  datatype Account = Account(id: int, email: string)

  /** The fields of a note request body; an absent field is the empty string. */
  datatype NoteFields = NoteFields(title: string, content: string, category: string, priority: string)

  /** A handler's response: 200/201 with a body, or 400, 401 or 404 with an error message. */
  datatype Reply<T> = Ok(value: T) | BadRequest(error: string) | Unauthorized(error: string) | NotFound(error: string)

  const MissingCredentials := "Email and password are required"
  const ShortPassword := "Password must be at least 6 characters"
  const UserExists := "User already exists"
  const InvalidCredentials := "Invalid email or password"
  const UserNotFound := "User not found"
  const MissingTitleOrContent := "Title and content are required"
  const NoteNotFound := "Note not found"
  const PasswordUpdated := "Password updated successfully"
  const NoteDeleted := "Note deleted successfully"

  const MinPasswordLength := 6

  function HasEmail(email: string): User -> bool
  {
    (u: User) => u.email == email
  }

  function HasId(id: int): User -> bool
  {
    (u: User) => u.id == id
  }

  /** `note.userId === id`: the filter of the listing and statistics routes. */
  function OwnedBy(id: int): Note -> bool
  {
    (n: Note) => n.userId == id
  }

  /** `n.id === noteId && n.userId === id`: the match of the single-note routes. */
  function OwnedWithId(id: int, noteId: int): Note -> bool
  {
    (n: Note) => n.id == noteId && n.userId == id
  }

  /** Some registered user has this email. */
  predicate EmailTaken(users: seq<User>, email: string)
  {
    exists i :: 0 <= i < |users| && users[i].email == email
  }

  /** No two registered users share an email. */
  predicate UniqueEmails(users: seq<User>)
  {
    forall i, j :: 0 <= i < j < |users| ==> users[i].email != users[j].email
  }

  /** Every stored note has a non-empty title, content, category and priority. */
  predicate CompleteNotes(notes: seq<Note>)
  {
    forall i :: 0 <= i < |notes| ==> Complete(notes[i])
  }

  predicate Complete(n: Note)
  {
    n.title != "" && n.content != "" && n.category != "" && n.priority != ""
  }

  /** The note `POST /api/notes` stores: missing category and priority take their defaults. */
  function NewNote(caller: Caller, body: NoteFields, clock: int, now: string): (n: Note)
    requires body.title != "" && body.content != ""
    ensures n.userId == caller.id && n.userEmail == caller.email && n.id == clock
    ensures n.title == body.title && n.content == body.content
    ensures body.category == "" ==> n.category == "General"
    ensures body.category != "" ==> n.category == body.category
    ensures body.priority == "" ==> n.priority == "Medium"
    ensures body.priority != "" ==> n.priority == body.priority
    ensures n.createdAt == n.updatedAt == now
    ensures Complete(n)
  {
    Note(clock, caller.id, caller.email, body.title, body.content,
         Or(body.category, "General"), Or(body.priority, "Medium"), now, now)
  }

  /** The note `PUT /api/notes/:id` stores: each falsy field keeps its old value. */
  function Merge(n: Note, body: NoteFields, now: string): (m: Note)
    ensures m.id == n.id && m.userId == n.userId && m.userEmail == n.userEmail
    ensures m.createdAt == n.createdAt && m.updatedAt == now
    ensures m.title == (if body.title == "" then n.title else body.title)
    ensures m.content == (if body.content == "" then n.content else body.content)
    ensures m.category == (if body.category == "" then n.category else body.category)
    ensures m.priority == (if body.priority == "" then n.priority else body.priority)
    ensures Complete(n) ==> Complete(m)
  {
    n.(title := Or(body.title, n.title),
       content := Or(body.content, n.content),
       category := Or(body.category, n.category),
       priority := Or(body.priority, n.priority),
       updatedAt := now)
  }

  /** Merging an empty body changes nothing but the update time: a field cannot be cleared. */
  lemma MergeEmptyBody(n: Note, now: string)
    ensures Merge(n, NoteFields("", "", "", ""), now) == n.(updatedAt := now)
  {
  }

  function TagOf(n: Note): Aggregator.Tag
  {
    Aggregator.Tag(n.category, n.priority)
  }

  class Server {
    var users: seq<User>
    var notes: seq<Note>

    /** The invariant the handlers keep: emails are unique and every note is complete. */
    predicate Valid()
      reads this
    {
      UniqueEmails(users) && CompleteNotes(notes)
    }

    constructor ()
      ensures Valid() && users == [] && notes == []
    {
      users := [];
      notes := [];
    }

    /** `POST /api/auth/register` (the signed token is not modelled). */
    method Register(email: string, password: string, hash: string -> string, clock: int, now: string)
      returns (r: Reply<Account>)
      requires Valid()
      modifies this`users
      ensures Valid()
      ensures email == "" || password == "" ==> r == BadRequest(MissingCredentials) && users == old(users)
      ensures email != "" && password != "" && Utf16Length(password) < MinPasswordLength ==>
        r == BadRequest(ShortPassword) && users == old(users)
      ensures email != "" && Utf16Length(password) >= MinPasswordLength && EmailTaken(old(users), email) ==>
        r == BadRequest(UserExists) && users == old(users)
      ensures email != "" && Utf16Length(password) >= MinPasswordLength && !EmailTaken(old(users), email) ==>
        r == Ok(Account(clock, email)) && users == old(users) + [User(clock, email, hash(password), now)]
    {
      if email == "" || password == "" {
        return BadRequest(MissingCredentials);
      }
      if Utf16Length(password) < MinPasswordLength {
        return BadRequest(ShortPassword);
      }
      match FindIndex(users, HasEmail(email))
      case Some(i) =>
        r := BadRequest(UserExists);
      case None =>
        assert !EmailTaken(users, email) by {
          forall i | 0 <= i < |users| ensures users[i].email != email {
            assert !HasEmail(email)(users[i]);
          }
        }
        users := users + [User(clock, email, hash(password), now)];
        r := Ok(Account(clock, email));
    }

    /** `POST /api/auth/login`: an unknown email and a wrong password give the same reply. */
    function Login(email: string, password: string, compare: (string, string) -> bool): (r: Reply<Account>)
      reads this
      ensures email == "" || password == "" ==> r == BadRequest(MissingCredentials)
      ensures email != "" && password != "" && !EmailTaken(users, email) ==> r == Unauthorized(InvalidCredentials)
      ensures email != "" && password != "" ==>
        forall i :: IsFirst(users, HasEmail(email), i) ==>
          r == if compare(password, users[i].password) then Ok(Account(users[i].id, email))
               else Unauthorized(InvalidCredentials)
      ensures r.Ok? || r == BadRequest(MissingCredentials) || r == Unauthorized(InvalidCredentials)
    {
      if email == "" || password == "" then BadRequest(MissingCredentials)
      else
        match FindIndex(users, HasEmail(email))
        case None =>
          assert !EmailTaken(users, email) by {
            forall i | 0 <= i < |users| ensures users[i].email != email {
              assert !HasEmail(email)(users[i]);
            }
          }
          Unauthorized(InvalidCredentials)
        case Some(i) =>
          FirstIsUnique(users, HasEmail(email), i);
          if compare(password, users[i].password) then Ok(Account(users[i].id, users[i].email))
          else Unauthorized(InvalidCredentials)
    }

    /** `GET /api/auth/profile`. */
    function Profile(caller: Caller): (r: Reply<Account>)
      reads this
      ensures r.Ok? <==> exists i :: 0 <= i < |users| && users[i].id == caller.id
      ensures r.Ok? ==> r.value.id == caller.id && exists i :: 0 <= i < |users| && users[i] == User(caller.id, r.value.email, users[i].password, users[i].createdAt)
      ensures !r.Ok? ==> r == NotFound(UserNotFound)
      ensures r.Ok? ==> forall i :: IsFirst(users, HasId(caller.id), i) ==> r.value == Account(caller.id, users[i].email)
    {
      match FindIndex(users, HasId(caller.id))
      case None =>
        assert forall i :: 0 <= i < |users| ==> !HasId(caller.id)(users[i]);
        NotFound(UserNotFound)
      case Some(i) =>
        FirstIsUnique(users, HasId(caller.id), i);
        Ok(Account(users[i].id, users[i].email))
    }

    /** `PUT /api/auth/password`: only the matched user's password changes. */
    method UpdatePassword(caller: Caller, newPassword: string, hash: string -> string) returns (r: Reply<string>)
      requires Valid()
      modifies this`users
      ensures Valid()
      ensures Utf16Length(newPassword) < MinPasswordLength ==> r == BadRequest(ShortPassword) && users == old(users)
      ensures Utf16Length(newPassword) >= MinPasswordLength && NoneMatch(old(users), HasId(caller.id)) ==>
        r == NotFound(UserNotFound) && users == old(users)
      ensures Utf16Length(newPassword) >= MinPasswordLength ==>
        forall i :: IsFirst(old(users), HasId(caller.id), i) ==>
          r == Ok(PasswordUpdated) && users == old(users)[i := old(users)[i].(password := hash(newPassword))]
    {
      if Utf16Length(newPassword) < MinPasswordLength {
        return BadRequest(ShortPassword);
      }
      match FindIndex(users, HasId(caller.id))
      case None =>
        r := NotFound(UserNotFound);
      case Some(i) =>
        FirstIsUnique(users, HasId(caller.id), i);
        users := users[i := users[i].(password := hash(newPassword))];
        r := Ok(PasswordUpdated);
    }

    /** `GET /api/notes`: the caller's notes, in insertion order. */
    function ListNotes(caller: Caller): (r: seq<Note>)
      reads this
      ensures forall i :: 0 <= i < |r| ==> r[i].userId == caller.id && r[i] in notes
      ensures forall i :: 0 <= i < |notes| && notes[i].userId == caller.id ==> notes[i] in r
    {
      Filter(notes, OwnedBy(caller.id))
    }

    /** `GET /api/notes/:id`: another user's note is reported as missing. */
    function GetNote(caller: Caller, noteId: int): (r: Reply<Note>)
      reads this
      ensures r.Ok? || r == NotFound(NoteNotFound)
      ensures r.Ok? ==> r.value in notes && r.value.id == noteId && r.value.userId == caller.id
      ensures r.NotFound? <==> forall i :: 0 <= i < |notes| ==> !(notes[i].id == noteId && notes[i].userId == caller.id)
      ensures r.Ok? ==> forall i :: IsFirst(notes, OwnedWithId(caller.id, noteId), i) ==> r.value == notes[i]
    {
      match FindIndex(notes, OwnedWithId(caller.id, noteId))
      case None =>
        assert forall i :: 0 <= i < |notes| ==> !OwnedWithId(caller.id, noteId)(notes[i]);
        NotFound(NoteNotFound)
      case Some(i) =>
        FirstIsUnique(notes, OwnedWithId(caller.id, noteId), i);
        Ok(notes[i])
    }

    /** `POST /api/notes`. */
    method CreateNote(caller: Caller, body: NoteFields, clock: int, now: string) returns (r: Reply<Note>)
      requires Valid()
      modifies this`notes
      ensures Valid()
      ensures body.title == "" || body.content == "" ==> r == BadRequest(MissingTitleOrContent) && notes == old(notes)
      ensures body.title != "" && body.content != "" ==>
        r == Ok(NewNote(caller, body, clock, now)) && notes == old(notes) + [r.value]
    {
      if body.title == "" || body.content == "" {
        return BadRequest(MissingTitleOrContent);
      }
      var n := NewNote(caller, body, clock, now);
      notes := notes + [n];
      r := Ok(n);
    }

    /** `PUT /api/notes/:id`: a merge into the caller's first note with that id. */
    method UpdateNote(caller: Caller, noteId: int, body: NoteFields, now: string) returns (r: Reply<Note>)
      requires Valid()
      modifies this`notes
      ensures Valid()
      ensures NoneMatch(old(notes), OwnedWithId(caller.id, noteId)) ==> r == NotFound(NoteNotFound) && notes == old(notes)
      ensures forall i :: IsFirst(old(notes), OwnedWithId(caller.id, noteId), i) ==>
        r == Ok(Merge(old(notes)[i], body, now)) && notes == old(notes)[i := r.value]
    {
      match FindIndex(notes, OwnedWithId(caller.id, noteId))
      case None =>
        r := NotFound(NoteNotFound);
      case Some(i) =>
        FirstIsUnique(notes, OwnedWithId(caller.id, noteId), i);
        var m := Merge(notes[i], body, now);
        notes := notes[i := m];
        r := Ok(m);
    }

    /** `DELETE /api/notes/:id`: splices out the caller's first note with that id. */
    method DeleteNote(caller: Caller, noteId: int) returns (r: Reply<string>)
      requires Valid()
      modifies this`notes
      ensures Valid()
      ensures NoneMatch(old(notes), OwnedWithId(caller.id, noteId)) ==> r == NotFound(NoteNotFound) && notes == old(notes)
      ensures forall i :: IsFirst(old(notes), OwnedWithId(caller.id, noteId), i) ==>
        r == Ok(NoteDeleted) && notes == old(notes)[..i] + old(notes)[i + 1..]
    {
      match FindIndex(notes, OwnedWithId(caller.id, noteId))
      case None =>
        r := NotFound(NoteNotFound);
      case Some(i) =>
        FirstIsUnique(notes, OwnedWithId(caller.id, noteId), i);
        notes := notes[..i] + notes[i + 1..];
        r := Ok(NoteDeleted);
    }

    /** `GET /api/stats`: the statistics of the caller's notes. */
    method Stats(caller: Caller) returns (s: Aggregator.Stats)
      ensures s == Aggregator.Summarize(Aggregator.TagsOf(ListNotes(caller), TagOf))
    {
      s := Aggregator.ComputeStats(Aggregator.TagsOf(ListNotes(caller), TagOf));
    }
  }

  /** A newly registered user can log in with the password they registered with, given
      that the hash comparator accepts a password against its own hash. */
  lemma {:induction false} RegisteredUserCanLogIn(
    users: seq<User>, email: string, password: string, id: int, now: string,
    hash: string -> string, compare: (string, string) -> bool)
    requires email != "" && password != "" && !EmailTaken(users, email)
    requires compare(password, hash(password))
    ensures var after := users + [User(id, email, hash(password), now)];
      IsFirst(after, HasEmail(email), |users|) && compare(password, after[|users|].password)
  {
    var after := users + [User(id, email, hash(password), now)];
    forall j | 0 <= j < |users| ensures !HasEmail(email)(after[j]) {
      assert after[j] == users[j];
    }
  }

  /** The caller's listing after a create: the new note comes last, and other callers'
      listings are unchanged. */
  lemma ListAfterCreate(notes: seq<Note>, n: Note, id: int)
    ensures Filter(notes + [n], OwnedBy(id)) ==
      Filter(notes, OwnedBy(id)) + (if n.userId == id then [n] else [])
  {
    FilterSnoc(notes, n, OwnedBy(id));
  }

  /** Splicing a note `x` out of `before + [x] + after` removes exactly that note from
      its owner's listing and keeps every other listed note in order. */
  lemma ListAfterDelete(before: seq<Note>, x: Note, after: seq<Note>, id: int)
    ensures Filter(before + [x] + after, OwnedBy(id)) ==
      Filter(before, OwnedBy(id)) + (if x.userId == id then [x] else []) + Filter(after, OwnedBy(id))
    ensures Filter(before + after, OwnedBy(id)) == Filter(before, OwnedBy(id)) + Filter(after, OwnedBy(id))
  {
    FilterAround(before, x, after, OwnedBy(id));
    FilterAppend(before, after, OwnedBy(id));
  }
}
