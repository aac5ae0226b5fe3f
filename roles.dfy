/** The three authorities a principal can hold (Spring's ROLE_USER, ROLE_ONG, ROLE_ADMIN). */
module Roles {

  datatype Role = USER | ONG | ADMIN
}
