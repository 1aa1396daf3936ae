/** The Company document the company routes read and write. Its schema file
    (`src/models/Company`) is not part of this model, so the record holds
    exactly the fields the routes use, and the transformation a save applies
    to the password is a parameter of the create operation. */
module CompanyModel {
  import opened Common

  /** A stored company; `password` is what the store keeps (the login route
      compares against it with bcrypt, so it is expected to be a hash). */
  datatype Company = Company(id: Id, name: string, email: string, password: string)

  /** The unique index on `_id`. */
  ghost predicate CompanyIdsUnique(cs: seq<Company>) {
    forall i, j :: 0 <= i < j < |cs| ==> cs[i].id != cs[j].id
  }

  /** The first company satisfying `p`, in natural order: a `findOne` over
      the companies collection. */
  function FindCompany(cs: seq<Company>, p: Company -> bool): (r: Option<Company>)
    ensures r.Some? ==> r.value in cs && p(r.value)
    ensures r.None? <==> forall c :: c in cs ==> !p(c)
  {
    match FirstIndex(cs, p)
    case None => None
    case Some(i) => Some(cs[i])
  }

  /** `Company.findById(id)`. */
  function CompanyById(cs: seq<Company>, id: Id): (r: Option<Company>)
    ensures r.Some? ==> r.value in cs && r.value.id == id
    ensures r.None? <==> forall c :: c in cs ==> c.id != id
  {
    FindCompany(cs, (c: Company) => c.id == id)
  }

  /** `Company.findOne({ email })`: the first company with that email, in
      natural order (nothing in the visible code makes company emails unique). */
  function CompanyByEmail(cs: seq<Company>, email: string): (r: Option<Company>)
    ensures r.Some? ==> r.value in cs && r.value.email == email
    ensures r.None? <==> forall c :: c in cs ==> c.email != email
  {
    FindCompany(cs, (c: Company) => c.email == email)
  }
}
