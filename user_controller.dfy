/** The account handlers of the REST service over an in-memory user table
    keyed by email. Password hashing (`comparePassword`) and token signing
    (`generateToken`) are foreign code and enter as function parameters. */
module UserController {
  import opened Text

  type UserId = nat

  datatype User = User(id: UserId, fullName: string, email: string, password: string)

  /** The `user` object of a reply: never the password. */
  datatype Profile = Profile(id: UserId, fullName: string, email: string)

  function ProfileOf(u: User): Profile {
    Profile(u.id, u.fullName, u.email)
  }

  /** Status, `success`, `message`, and for the two success replies the
      profile and the token. */
  datatype Reply = Reply(status: nat, success: bool, message: string, profile: Option<Profile>, token: Option<string>)

  function Failure(status: nat, message: string): Reply {
    Reply(status, false, message, None, None)
  }

  /** A body field that JavaScript treats as truthy. */
  predicate Given(f: Option<string>) {
    f.Some? && f.value != ""
  }

  const FillAllFields: string := "Please fill all fields"
  const AlreadyExists: string := "User already exists"
  const InvalidCredentials: string := "Invalid credentials"

  const UserNotFound: string := "User not found"

  class UserTable {
    var users: map<string, User>
    var nextId: nat

    /** Each user sits under its own email, and ids are issued once. */
    predicate Valid()
      reads this
    {
      && (forall e :: e in users ==> users[e].email == e && users[e].id < nextId)
      && (forall e1, e2 :: e1 in users && e2 in users && e1 != e2 ==> users[e1].id != users[e2].id)
    }

    /** `User.findById(id)` finds someone. */
    predicate HasId(id: UserId)
      reads this
    {
      exists e :: e in users && users[e].id == id
    }

    constructor ()
      ensures Valid() && users == map[] && nextId == 0
    {
      users := map[];
      nextId := 0;
    }

    /** `registerUser`: 400 when a field is missing or the email is taken,
        otherwise 201 with one new user under a fresh id, its profile, and a
        token signed for that id. */
    method RegisterUser(fullName: Option<string>, email: Option<string>, password: Option<string>,
                        sign: UserId -> string)
      returns (reply: Reply)
      requires Valid()
      modifies this
      ensures Valid()
      ensures !(Given(fullName) && Given(email) && Given(password)) ==>
        reply == Failure(400, FillAllFields) && users == old(users) && nextId == old(nextId)
      ensures Given(fullName) && Given(email) && Given(password) && email.value in old(users) ==>
        reply == Failure(400, AlreadyExists) && users == old(users) && nextId == old(nextId)
      ensures Given(fullName) && Given(email) && Given(password) && email.value !in old(users) ==>
        var u := User(old(nextId), fullName.value, email.value, password.value);
        && !old(HasId(nextId))
        && users == old(users)[email.value := u]
        && reply == Reply(201, true, "User registered successfully", Some(ProfileOf(u)), Some(sign(u.id)))
    {
      if !(Given(fullName) && Given(email) && Given(password)) {
        return Failure(400, FillAllFields);
      }
      if email.value in users {
        return Failure(400, AlreadyExists);
      }
      var u := User(nextId, fullName.value, email.value, password.value);
      users := users[email.value := u];
      nextId := nextId + 1;
      reply := Reply(201, true, "User registered successfully", Some(ProfileOf(u)), Some(sign(u.id)));
    }

    /** `loginUser`: 400 for a missing field; 401, with one message for an
        unknown email and a wrong password alike; otherwise 200 with the
        profile and a token for that user. */
    method LoginUser(email: Option<string>, password: Option<string>,
                     matches: (User, string) -> bool, sign: UserId -> string)
      returns (reply: Reply)
      ensures !(Given(email) && Given(password)) ==> reply == Failure(400, FillAllFields)
      ensures Given(email) && Given(password) ==>
        (email.value in users && matches(users[email.value], password.value)
         <==> reply.status == 200)
      ensures Given(email) && Given(password) && reply.status != 200 ==>
        reply == Failure(401, InvalidCredentials)
      ensures reply.status == 200 ==>
        email.Some? && email.value in users
        && reply == Reply(200, true, "Login successful", Some(ProfileOf(users[email.value])),
                          Some(sign(users[email.value].id)))
    {
      if !(Given(email) && Given(password)) {
        return Failure(400, FillAllFields);
      }
      if email.value !in users || !matches(users[email.value], password.value) {
        return Failure(401, InvalidCredentials);
      }
      var u := users[email.value];
      reply := Reply(200, true, "Login successful", Some(ProfileOf(u)), Some(sign(u.id)));
    }

    /** `getUserInfo`: the caller's record without its password, or 404. */
    method GetUserInfo(id: UserId) returns (reply: Reply)
      requires Valid()
      ensures !HasId(id) ==> reply == Failure(404, UserNotFound)
      ensures forall e :: e in users && users[e].id == id ==>
        reply == Reply(200, true, "", Some(ProfileOf(users[e])), None)
    {
      if e :| e in users && users[e].id == id {
        return Reply(200, true, "", Some(ProfileOf(users[e])), None);
      }
      return Failure(404, UserNotFound);
    }
  }
}
