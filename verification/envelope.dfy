/**
 * The listing response as the screens read it. A response is a JSON object; the model keeps its
 * array-valued members (the records) and its object-valued members (the pagination block, whose
 * numeric members are kept as naturals). A member that is absent, `null` or `undefined` is simply
 * missing from the map. Each screen reads the records and the pagination block under its own keys.
 */
module Envelope {
  import opened Wrappers

  datatype Response<T> = Response(lists: map<string, seq<T>>, objects: map<string, map<string, nat>>)

  /** The member names under which a screen finds its records and its pagination block. */
  datatype Keys = Keys(items: string, pagination: string)

  /** Training sessions and clients: `response.data` and `response.pagination`. */
  const DataKeys := Keys("data", "pagination")
  /** Payroll list: `response.PayrollInfo` and `response.Pagination` (capitalised). */
  const PayrollKeys := Keys("PayrollInfo", "Pagination")
  /** Payslip history: `response.payroll_info_list` and `response.pagination`. */
  const HistoryKeys := Keys("payroll_info_list", "pagination")

  /** `obj[key] || fallback` for a numeric member: a missing member and 0 are both falsy. */
  function Or(obj: map<string, nat>, key: string, fallback: nat): (n: nat)
    ensures key in obj && obj[key] != 0 ==> n == obj[key]
    ensures key !in obj || obj[key] == 0 ==> n == fallback
    ensures fallback > 0 ==> n > 0
  {
    if key in obj && obj[key] != 0 then obj[key] else fallback
  }

  /** `response[key] || []`: an empty array is truthy in JavaScript, so it is kept as it is. */
  function ItemsOf<T>(r: Response<T>, key: string): (items: seq<T>)
    ensures key in r.lists ==> items == r.lists[key]
    ensures key !in r.lists ==> items == []
  {
    if key in r.lists then r.lists[key] else []
  }

  /** The server's pagination after the falsy fallbacks `|| 0`, `|| 1` and `|| 10`. */
  datatype Pagination = Pagination(total: nat, page: nat, perPage: nat)

  /**
   * What a fetch adopts from a response: the records, and the pagination block when the response
   * has one. Without it, `response.pagination.total_count` throws after the records are set, so
   * nothing else is adopted.
   */
  datatype Adopted<T> = Adopted(items: seq<T>, pagination: Option<Pagination>)

  function Read<T>(r: Response<T>, keys: Keys): (a: Adopted<T>)
    ensures a.items == ItemsOf(r, keys.items)
    ensures a.pagination.Some? <==> keys.pagination in r.objects
    ensures a.pagination.Some? ==> a.pagination.value.page >= 1 && a.pagination.value.perPage >= 1
    ensures a.pagination.Some? ==> var block := r.objects[keys.pagination];
      && a.pagination.value.total == Or(block, "total_count", 0)
      && a.pagination.value.page == Or(block, "page", 1)
      && a.pagination.value.perPage == Or(block, "per_page", 10)
  {
    var items := ItemsOf(r, keys.items);
    if keys.pagination in r.objects then
      var block := r.objects[keys.pagination];
      Adopted(items, Some(Pagination(Or(block, "total_count", 0), Or(block, "page", 1), Or(block, "per_page", 10))))
    else
      Adopted(items, None)
  }

  /** Server values override the request: a non-zero `page` and `per_page` are adopted as sent. */
  lemma ServerValuesWin<T>(r: Response<T>, keys: Keys)
    requires keys.pagination in r.objects
    requires var block := r.objects[keys.pagination];
      "page" in block && block["page"] > 0 && "per_page" in block && block["per_page"] > 0
    ensures var block := r.objects[keys.pagination];
      && Read(r, keys).pagination.Some?
      && Read(r, keys).pagination.value.page == block["page"]
      && Read(r, keys).pagination.value.perPage == block["per_page"]
  {
  }

  /**
   * The payroll list reads capitalised keys: a response laid out as the training and client
   * endpoints answer yields no records and no pagination there.
   */
  lemma PayrollIgnoresLowerCaseLayout<T>(records: seq<T>, block: map<string, nat>)
    ensures var r := Response(map["data" := records], map["pagination" := block]);
      Read(r, PayrollKeys) == Adopted([], None)
  {
  }
}
