/** JSON values; the members of an object are kept in the sorted key order in which they are printed. */
module Json {
  datatype Json =
    | Null
    | Bool(value: bool)
    | Number(number: int)
    | Text(text: string)
    | List(items: seq<Json>)
    | Object(members: seq<Member>)

  datatype Member = Member(key: string, value: Json)
}
