/** The Part record (src/types.ts) and the shapes in which parts travel between the
    components and the parts store. Prices are whole cents. */
module Parts {
  import Seqs

  datatype Option<T> = None | Some(value: T)

  datatype Result<T, E> = Success(value: T) | Failure(error: E)

  /** A failure reported by the parts store (network or backend). */
  datatype StorageError = StorageError

  /** One inventory item. */
  datatype Part = Part(
    id: string,
    name: string,
    description: string,
    quantity: int,
    price: int,
    imageUrl: string,
    createdAt: string,
    updatedAt: string)

  /** A part without the store-assigned fields: `Omit<Part, 'id' | 'created_at' | 'updated_at'>`. */
  datatype Draft = Draft(name: string, description: string, quantity: int, price: int, imageUrl: string)

  /** `Partial<Part>` as sent to the store's update: only the present fields are written. */
  datatype Patch = Patch(
    name: Option<string>,
    description: Option<string>,
    quantity: Option<int>,
    price: Option<int>,
    imageUrl: Option<string>)

  /** The update sent by a sale: `{ quantity: q }` and nothing else. */
  function QuantityPatch(q: int): (p: Patch)
    ensures p.quantity == Some(q)
    ensures p.name.None? && p.description.None? && p.price.None? && p.imageUrl.None?
  {
    Patch(None, None, Some(q), None, None)
  }

  /** The update sent by an edit: every field of the submitted draft. */
  function DraftPatch(d: Draft): Patch
  {
    Patch(Some(d.name), Some(d.description), Some(d.quantity), Some(d.price), Some(d.imageUrl))
  }

  function Overwrite<T>(current: T, field: Option<T>): T
  {
    if field.Some? then field.value else current
  }

  /** What the store does with an update keyed by id: overwrite exactly the fields present. */
  function ApplyPatch(p: Part, patch: Patch): Part
  {
    p.(name := Overwrite(p.name, patch.name),
       description := Overwrite(p.description, patch.description),
       quantity := Overwrite(p.quantity, patch.quantity),
       price := Overwrite(p.price, patch.price),
       imageUrl := Overwrite(p.imageUrl, patch.imageUrl))
  }

  /** A sale's update changes the stock and no other field of the record. */
  lemma SalePatchChangesOnlyQuantity(p: Part, q: int)
    ensures ApplyPatch(p, QuantityPatch(q)) == p.(quantity := q)
  {
  }

  /** An edit's update leaves the record's identity and timestamps alone and takes every editable field from the draft. */
  lemma EditPatchKeepsIdentity(p: Part, d: Draft)
    ensures var u := ApplyPatch(p, DraftPatch(d));
      u.id == p.id && u.createdAt == p.createdAt && u.updatedAt == p.updatedAt &&
      Draft(u.name, u.description, u.quantity, u.price, u.imageUrl) == d
  {
  }

  /** Some element of `parts` carries identifier `id` (`parts.find(p => p.id === id)` is truthy). */
  predicate HasId(parts: seq<Part>, id: string)
  {
    exists i :: 0 <= i < |parts| && parts[i].id == id
  }

  function IdIsNot(id: string): Part -> bool
  {
    (p: Part) => p.id != id
  }

  /** `parts.filter(p => p.id !== id)`. */
  function WithoutId(parts: seq<Part>, id: string): seq<Part>
  {
    Seqs.Filter(IdIsNot(id), parts)
  }

  /** Dropping an id removes every record with that id, keeps all others in their order, and
      changes nothing when the id is absent. */
  lemma WithoutIdSpec(parts: seq<Part>, id: string)
    ensures !HasId(WithoutId(parts, id), id)
    ensures forall q :: q in WithoutId(parts, id) <==> q in parts && q.id != id
    ensures Seqs.IsSubsequence(WithoutId(parts, id), parts)
    ensures !HasId(parts, id) ==> WithoutId(parts, id) == parts
    ensures forall q :: multiset(WithoutId(parts, id))[q] == if q.id != id then multiset(parts)[q] else 0
  {
    Seqs.FilterMultiset(IdIsNot(id), parts);
    forall q ensures q in WithoutId(parts, id) <==> q in parts && q.id != id {
      Seqs.FilterMembers(IdIsNot(id), parts, q);
    }
    Seqs.FilterIsSubsequence(IdIsNot(id), parts);
    if !HasId(parts, id) {
      Seqs.FilterKeepsAll(IdIsNot(id), parts);
    }
  }
}
