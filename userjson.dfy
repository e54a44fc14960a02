/**
 * The user record as text in the persistent store: `JSON.stringify(user)`,
 * which writes the members in declaration order and leaves out an absent
 * `image`, and the reading back that `JSON.parse` does on restore.
 */
module UserJson {
  import opened JsRuntime
  import opened DummyJsonApi
  import Json

  /** The `image` member, absent when the user has no image. */
  function ImageMember(image: Option<string>): string {
    match image
    case None => ""
    case Some(uri) => ",\"image\":" + Json.Quote(uri)
  }

  /** `JSON.stringify(user)`: a JSON object, never empty, so restoring finds it truthy. */
  function SerializeUser(u: User): (text: string)
    ensures text != "" && text[0] == '{' && text[|text| - 1] == '}'
  {
    "{\"id\":" + (NumberToText(u.id) +
    (",\"username\":" + (Json.Quote(u.username) +
    (",\"email\":" + (Json.Quote(u.email) +
    (",\"firstName\":" + (Json.Quote(u.firstName) +
    (",\"lastName\":" + (Json.Quote(u.lastName) +
    (ImageMember(u.image) + "}"))))))))))
  }

  /** The optional `image` member, and the text after it. */
  function ParseImage(s: string): (r: Option<(Option<string>, string)>)
    ensures r.Some? ==> EndsWith(s, r.value.1)
  {
    match Expect(",\"image\":", s)
    case None => Some((None, s))
    case Some(s1) =>
      var q :- Json.ParseString(s1);
      ExpectRest(",\"image\":", s);
      EndsWithTrans(s, s1, q.1);
      Some((Some(q.0), q.1))
  }

  /** A member `name` holding a string, and the text after it. */
  function ParseStringMember(name: string, s: string): (r: Option<(string, string)>)
    ensures r.Some? ==> EndsWith(s, r.value.1)
  {
    var s1 :- Expect(name, s);
    var v :- Json.ParseString(s1);
    ExpectRest(name, s);
    EndsWithTrans(s, s1, v.1);
    Some(v)
  }

  /**
   * `JSON.parse(text)` for the text of a user record; None where it would
   * throw. Only a JSON object, opening with its `id` member, is read.
   */
  function ParseUser(text: string): (r: Option<User>)
    ensures r.Some? ==> |text| > 6 && text[..6] == "{\"id\":" && text[|text| - 1] == '}'
  {
    var s0 :- Expect("{\"id\":", text);
    var id :- ParseInt(s0);
    var username :- ParseStringMember(",\"username\":", id.1);
    var email :- ParseStringMember(",\"email\":", username.1);
    var firstName :- ParseStringMember(",\"firstName\":", email.1);
    var lastName :- ParseStringMember(",\"lastName\":", firstName.1);
    var image :- ParseImage(lastName.1);
    var s5 :- Expect("}", image.1);
    if s5 == "" then
      ExpectRest("{\"id\":", text);
      ParseIntRest(s0);
      EndsWithTrans(text, s0, id.1);
      EndsWithTrans(text, id.1, username.1);
      EndsWithTrans(text, username.1, email.1);
      EndsWithTrans(text, email.1, firstName.1);
      EndsWithTrans(text, firstName.1, lastName.1);
      EndsWithTrans(text, lastName.1, image.1);
      assert image.1 == "}";
      Some(User(id.0, username.0, email.0, firstName.0, lastName.0, image.0))
    else None
  }

  lemma ImageRoundTrip(image: Option<string>)
    ensures ParseImage(ImageMember(image) + "}") == Some((image, "}"))
  {
    match image
    case None =>
      assert ImageMember(image) + "}" == "}";
    case Some(uri) =>
      assert ImageMember(image) + "}" == ",\"image\":" + (Json.Quote(uri) + "}");
      ExpectLiteral(",\"image\":", Json.Quote(uri) + "}");
      Json.QuoteRoundTrip(uri, "}");
  }

  /** `JSON.parse(JSON.stringify(user))` gives the same user back, with or without an image. */
  lemma UserRoundTrip(u: User)
    ensures ParseUser(SerializeUser(u)) == Some(u)
  {
    var t9 := ImageMember(u.image) + "}";
    var t8 := ",\"lastName\":" + (Json.Quote(u.lastName) + t9);
    var t6 := ",\"firstName\":" + (Json.Quote(u.firstName) + t8);
    var t4 := ",\"email\":" + (Json.Quote(u.email) + t6);
    var t2 := ",\"username\":" + (Json.Quote(u.username) + t4);
    var t0 := NumberToText(u.id) + t2;
    ExpectLiteral("{\"id\":", t0);
    NumberTextRoundTrip(u.id, t2);
    ExpectLiteral(",\"username\":", Json.Quote(u.username) + t4);
    Json.QuoteRoundTrip(u.username, t4);
    ExpectLiteral(",\"email\":", Json.Quote(u.email) + t6);
    Json.QuoteRoundTrip(u.email, t6);
    ExpectLiteral(",\"firstName\":", Json.Quote(u.firstName) + t8);
    Json.QuoteRoundTrip(u.firstName, t8);
    ExpectLiteral(",\"lastName\":", Json.Quote(u.lastName) + t9);
    Json.QuoteRoundTrip(u.lastName, t9);
    ImageRoundTrip(u.image);
    ExpectLiteral("}", "");
    assert "}" == "}" + "";
  }
}
