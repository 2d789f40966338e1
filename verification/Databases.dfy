/** What can become of a statement, besides what its constraints make of it. */
module Databases {
  /** It is answered; it is refused before it takes place; or it takes place and the answer never arrives. */
  datatype Reply = Answered | Refused | Unanswered
}
