/** The cart badge in the navigation bar. */
module Navbar {
  import opened Wrappers

  /** The badge text for a cart count: hidden unless positive, "9+" above 9. */
  function CartBadge(count: int): (r: Option<string>)
    ensures r.None? <==> count <= 0
    ensures count > 9 ==> r == Some("9+")
    ensures 0 < count <= 9 ==> |r.value| == 1 && r.value[0] as int - '0' as int == count
  {
    if count <= 0 then None
    else if count > 9 then Some("9+")
    else Some([('0' as int + count) as char])
  }
}
