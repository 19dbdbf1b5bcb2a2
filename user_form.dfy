/** The user form: its schema, which asks for the username only when an
    existing user is edited, the values it starts from, and the storage
    line shown for a user in charge of one. */
module UserForm {
  import opened Values
  import opened Domain

  datatype UserValues = UserValues(
    id: Option<nat>,
    name: string,
    lastName: string,
    username: string,
    email: string)

  const NameRequired: string := "El nombre es requerido"
  const LastNameRequired: string := "Los apellidos son requeridos"
  const EmailInvalid: string := "Email inválido"
  const EmailRequired: string := "El email es requerido"
  const UsernameRequired: string := "El nombre de usuario es requerido"

  const UserFields: set<string> := {"name", "lastName", "email", "username"}

  /** The rule of one field. An empty field is missing. `isEmail` is the
      schema library's e-mail format check. */
  function UserRule(isEditing: bool, isEmail: string -> bool, v: UserValues, field: string): Option<string>
  {
    if field == "name" then
      if v.name == "" then Some(NameRequired) else None
    else if field == "lastName" then
      if v.lastName == "" then Some(LastNameRequired) else None
    else if field == "email" then
      if v.email == "" then Some(EmailRequired)
      else if !isEmail(v.email) then Some(EmailInvalid)
      else None
    else if field == "username" then
      if isEditing && v.username == "" then Some(UsernameRequired) else None
    else None
  }

  /** `UserSchema(isEditing)`: name, last name and a well-formed e-mail are
      always required, the username only when editing. */
  function UserSchemaErrors(isEditing: bool, isEmail: string -> bool, v: UserValues): (errors: map<string, string>)
    ensures errors.Keys <= UserFields
    ensures "name" in errors <==> v.name == ""
    ensures "lastName" in errors <==> v.lastName == ""
    ensures "email" in errors <==> v.email == "" || !isEmail(v.email)
    ensures "username" in errors <==> isEditing && v.username == ""
    ensures "email" in errors ==> errors["email"] == (if v.email == "" then EmailRequired else EmailInvalid)
    ensures forall f :: f in errors ==> UserRule(isEditing, isEmail, v, f) == Some(errors[f])
  {
    map f | f in UserFields && UserRule(isEditing, isEmail, v, f).Some? :: UserRule(isEditing, isEmail, v, f).value
  }

  /** Editing is the stricter schema: it refuses whatever creating refuses,
      with the same messages, and differs only in the username. */
  lemma EditingIsStricter(isEmail: string -> bool, v: UserValues)
    ensures var c := UserSchemaErrors(false, isEmail, v);
      var e := UserSchemaErrors(true, isEmail, v);
      && c.Keys <= e.Keys
      && (forall f :: f in c ==> e[f] == c[f])
      && e.Keys - c.Keys <= {"username"}
      && "username" !in c
  {
    var c := UserSchemaErrors(false, isEmail, v);
    var e := UserSchemaErrors(true, isEmail, v);
    forall f | f in c ensures f in e && e[f] == c[f] {
      assert UserRule(false, isEmail, v, f) == Some(c[f]);
      assert f != "username";
    }
  }

  /** `isEditing`. */
  predicate IsEditing(user: Option<UserRecord>)
  {
    user.Some?
  }

  /** The values the form starts from: the edited user's, where falsy ones
      fall back to null and "". */
  function InitialValues(user: Option<UserRecord>): (v: UserValues)
    ensures user.None? ==> v == UserValues(None, "", "", "", "")
    ensures user.Some? ==>
      && v.id == (if user.value.id != 0 then Some(user.value.id) else None)
      && v.name == OrElse(user.value.name, "")
      && v.lastName == OrElse(user.value.lastName, "")
      && v.username == OrElse(user.value.username, "")
      && v.email == OrElse(user.value.email, "")
  {
    if user.None? then UserValues(None, "", "", "", "")
    else
      var u := user.value;
      UserValues(if u.id != 0 then Some(u.id) else None,
        OrElse(u.name, ""), OrElse(u.lastName, ""), OrElse(u.username, ""), OrElse(u.email, ""))
  }

  /** A new form is refused for its empty name, last name and e-mail, but
      never for its username. */
  lemma NewFormNeedsInput(isEmail: string -> bool)
    ensures var e := UserSchemaErrors(IsEditing(None), isEmail, InitialValues(None));
      e.Keys == {"name", "lastName", "email"} && e["email"] == EmailRequired
  {
  }

  /** Editing a user whose fields are all present and whose e-mail is well
      formed starts from values the schema accepts, carrying the user's own
      fields. */
  lemma CompleteUserStartsValid(isEmail: string -> bool, u: UserRecord)
    requires Present(u.name) && Present(u.lastName) && Present(u.username) && Present(u.email)
    requires isEmail(u.email.value)
    ensures InitialValues(Some(u)).name == u.name.value && InitialValues(Some(u)).email == u.email.value
    ensures UserSchemaErrors(IsEditing(Some(u)), isEmail, InitialValues(Some(u))) == map[]
  {
    var e := UserSchemaErrors(true, isEmail, InitialValues(Some(u)));
    assert e.Keys == {};
  }

  /** The storage line: shown only for a storage with an identifier, with
      its category name or "Sin categoría". */
  function StorageInfo(storage: Option<Storage>): (line: Option<(string, string)>)
    ensures line.Some? <==> storage.Some? && Present(storage.value.storageIdentifier)
    ensures line.Some? ==> line.value.0 == storage.value.storageIdentifier.value
    ensures line.Some? && storage.value.category.Some? && Present(storage.value.category.value.categoryName) ==>
      line.value.1 == storage.value.category.value.categoryName.value
    ensures line.Some? && !(storage.value.category.Some? && Present(storage.value.category.value.categoryName)) ==>
      line.value.1 == "Sin categoría"
  {
    if storage.Some? && Present(storage.value.storageIdentifier) then
      var c := storage.value.category;
      Some((storage.value.storageIdentifier.value,
            if c.Some? then OrElse(c.value.categoryName, "Sin categoría") else "Sin categoría"))
    else None
  }
}
