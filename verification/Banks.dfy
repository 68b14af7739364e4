/** Item banks: how many of each item somebody holds. */
module Banks {

  datatype Option<+T> = None | Some(value: T)

  /** A bank maps an item to a positive count; an item it does not hold counts zero. */
  type Bank<!T(==)> = multiset<T>

  /** Adding a quantity; a non-positive quantity is ignored. */
  function Add<T(==)>(bank: Bank<T>, item: T, quantity: int): Bank<T>
  {
    if quantity <= 0 then bank else bank[item := bank[item] + quantity]
  }

  /** So many copies of one item. */
  function Copies<T(==)>(item: T, quantity: nat): Bank<T>
  {
    multiset{}[item := quantity]
  }

  lemma AddIsSum<T>(bank: Bank<T>, item: T, quantity: nat)
    ensures Add(bank, item, quantity) == bank + Copies(item, quantity)
  {
  }
}
