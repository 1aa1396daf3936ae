/** Values shared by every part of the model: optional values, identifiers,
    JavaScript truthiness, the password-hashing oracle, and the first-match
    query the handlers run over a collection kept in its natural (insertion)
    order. */
module Common {

  datatype Option<+T> = None | Some(value: T)

  /** A document identifier as it travels in paths, sessions and token claims:
      the string form of a MongoDB ObjectId. */
  type Id = string

  /** JavaScript truthiness of an optional string: `undefined` and `""` are falsy. */
  predicate Truthy(v: Option<string>) {
    v.Some? && v.value != ""
  }

  /** The string a request validator sees for a field: a missing field reads as `""`. */
  function OrEmpty(v: Option<string>): string {
    if v.Some? then v.value else ""
  }

  /** `v` when present, `d` otherwise (an update body that leaves a field out keeps it). */
  function Or<T>(v: Option<T>, d: T): T {
    if v.Some? then v.value else d
  }

  /** A salted one-way password hash and its comparison (bcrypt for companies,
      the authentication plugin's hash for users). Both are foreign code: the
      model only uses them through these two functions. */
  datatype Hasher = Hasher(hash: string -> string, matches: (string, string) -> bool)

  /** The one property the model relies on: a password matches its own hash. */
  ghost predicate Consistent(h: Hasher) {
    forall p :: h.matches(p, h.hash(p))
  }

  /** Index of the first element satisfying `p`: a `findOne` / `findById` over
      the collection's natural order. */
  function FirstIndex<T>(s: seq<T>, p: T -> bool): (r: Option<nat>)
    ensures r.Some? ==> r.value < |s| && p(s[r.value])
    ensures r.Some? ==> forall j :: 0 <= j < r.value ==> !p(s[j])
    ensures r.None? ==> forall j :: 0 <= j < |s| ==> !p(s[j])
  {
    if |s| == 0 then None
    else if p(s[0]) then Some(0)
    else match FirstIndex(s[1..], p)
      case None => None
      case Some(k) => Some(k + 1)
  }

  /** A match at the end found by a first-match query, when nothing before it matches. */
  lemma {:induction false} FirstIndexAfter<T>(s: seq<T>, x: T, p: T -> bool)
    requires forall j :: 0 <= j < |s| ==> !p(s[j])
    requires p(x)
    ensures FirstIndex(s + [x], p) == Some(|s|)
  {
    assert (s + [x])[|s|] == x;
    assert forall j :: 0 <= j < |s| ==> (s + [x])[j] == s[j];
  }
}
