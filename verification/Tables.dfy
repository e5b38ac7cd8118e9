/** Total tables indexed by object numbers: the memory in which the step systems keep their records. */
module Tables {
  type Table<+V> = nat -> V

  function Put<V>(f: Table<V>, k: nat, v: V): Table<V> {
    (n: nat) => if n == k then v else f(n)
  }
}
