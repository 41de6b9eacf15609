/** The user record shape the auth and order slices carry. */
module Users {
  import opened Common

  datatype Address = Address(street: string, city: string, state: string, zipCode: string, country: string)

  /** A user. `role` is "user" or "admin" in the type the application
      declares, but the slices compare it as a string. */
  datatype User = User(
    id: string,
    firstName: string,
    lastName: string,
    email: string,
    password: Option<string>,
    role: string,
    address: Option<Address>,
    createdAt: string)
}
