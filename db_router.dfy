/** The server's delete rule for libraries (`DELETE /db/libraries/{id}`), kept only as the
  * counterpart that answers the client's delete requests. */
module DbRouter {

  /** The table after the request, and the HTTP status of the answer. */
  datatype Deletion<V> = Deletion(table: map<int, V>, status: int)

  /** A missing id is answered 404 and changes nothing; a present one is removed and
    * answered 204 No Content. */
  function DeleteLibrary<V>(table: map<int, V>, id: int): (r: Deletion<V>)
    ensures r.table.Keys == table.Keys - {id}
    ensures forall k :: k in r.table ==> r.table[k] == table[k]
    ensures r.status == (if id in table then 204 else 404)
  {
    if id !in table then Deletion(table, 404)
    else Deletion(map k | k in table && k != id :: table[k], 204)
  }

  /** A second delete of the same id is always answered 404 and leaves the table alone. */
  lemma DeleteTwice<V>(table: map<int, V>, id: int)
    ensures var once := DeleteLibrary(table, id);
            DeleteLibrary(once.table, id) == Deletion(once.table, 404)
  {
  }
}
