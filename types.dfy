/** The backend's user record and the `{ user, token }` payload its login and
    registration endpoints return on success. */
module AuthTypes {
  import opened Js

  /** A user as the backend sends it; `type` is renamed `userType`. */
  datatype ApiUser = ApiUser(
    id: int,
    name: string,
    email: string,
    phone: Option<string>,
    avatar: Option<string>,
    userType: string,
    status: string,
    createdAt: string,
    updatedAt: string)

  /** The `data` member of a successful login or registration response. */
  datatype AuthData = AuthData(user: ApiUser, token: string)
}
