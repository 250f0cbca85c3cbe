/** Values that cross the HTTP boundary: optional request fields and the
    responses a handler writes back. */
module Http {
  /** `None` stands for JavaScript's undefined or null, `Some(v)` for a present value. */
  datatype Option<+T> = None | Some(value: T)

  /** JavaScript truthiness of an optional string: undefined, null and "" are falsy. */
  predicate Truthy(o: Option<string>)
  {
    o.Some? && o.value != ""
  }

  /** The `user` object answered by the users and user APIs (null fields are `None`). */
  datatype UserView = UserView(email: string, token: Option<string>, username: string,
                               bio: Option<string>, image: Option<string>)

  /** The `profile` object answered by the profiles API. */
  datatype ProfileView = ProfileView(username: string, bio: Option<string>,
                                     image: Option<string>, following: bool)

  /** The two body validators the rule table uses: `exists()` and `isEmail()`. */
  datatype Check = Exists | IsEmail

  /** One entry of the validation result: the field path and the check it failed. */
  datatype FieldError = FieldError(path: string, check: Check)

  datatype Response =
    | UserJson(user: UserView)                    // 200 with `{ user }`
    | ProfileJson(profile: ProfileView)           // 200 with `{ profile }`
    | Errors(status: int, messages: seq<string>)  // `status` with `{ errors: messages }`
    | Invalid(errors: seq<FieldError>)            // 422 with the validator's error list
    | Unhandled(reason: string)                   // the async handler rejects: nothing is written
}
