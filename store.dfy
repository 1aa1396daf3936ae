/** The document store behind the routes: the `companies` and `users`
    collections, each kept in natural (insertion) order, with the unique
    indexes the store itself enforces. */
module Store {
  import opened UserModel
  import opened CompanyModel

  class Db {
    var companies: seq<Company>
    var users: seq<UserDoc>

    /** The unique indexes: `_id` in both collections, `email` among users. */
    ghost predicate Valid()
      reads this
    {
      CompanyIdsUnique(companies) && UserIdsUnique(users) && EmailsUnique(users)
    }

    constructor ()
      ensures Valid() && companies == [] && users == []
    {
      companies := [];
      users := [];
    }
  }
}
