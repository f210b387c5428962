/** Client-side pagination shared by the quotation list and the product list:
    the page count (`Math.ceil`), the clamp of the current page, the list of
    page numbers shown as buttons, and the page itself as a `slice`. */
module Paginacion {
  import opened Base

  /** `Math.ceil(n / porPagina)`: the fewest pages of `porPagina` items that hold `n` items. */
  function TotalPaginas(n: nat, porPagina: nat): (r: nat)
    requires porPagina > 0
    ensures r * porPagina >= n
    ensures r == 0 || (r - 1) * porPagina < n
    ensures r == 0 <==> n == 0
  {
    CeilDivBounds(n, porPagina);
    (n + porPagina - 1) / porPagina
  }

  lemma CeilDivBounds(n: nat, d: nat)
    requires d > 0
    ensures ((n + d - 1) / d) * d >= n
    ensures (n + d - 1) / d == 0 || ((n + d - 1) / d - 1) * d < n
  {
    var q := (n + d - 1) / d;
    var m := (n + d - 1) % d;
    assert n + d - 1 == q * d + m;
    assert (q - 1) * d == q * d - d;
  }

  /** `Math.min(pagina, total || 1)`: a page beyond the last one falls back
      to the last one (to page 1 when there are no pages); a page below 1 is
      left as it is. */
  function AjustarPagina(pagina: int, total: nat): (r: int)
    ensures r <= pagina && r <= Max(total, 1)
    ensures r == pagina || r == Max(total, 1)
    ensures 1 <= pagina ==> 1 <= r
  {
    Min(pagina, if total == 0 then 1 else total)
  }

  /** `Array.from({ length: total }, (_, i) => i + 1)`: the page numbers 1..total, ascending. */
  function Rango(total: nat): (r: seq<int>)
    ensures |r| == total
    ensures forall k :: k in r <==> 1 <= k <= total
    ensures forall i, j :: 0 <= i < j < |r| ==> r[i] < r[j]
  {
    var r := seq(total, i => i + 1);
    RangoContiene(r, total);
    r
  }

  lemma RangoContiene(r: seq<int>, total: nat)
    requires |r| == total && forall i :: 0 <= i < total ==> r[i] == i + 1
    ensures forall k :: k in r <==> 1 <= k <= total
  {
    forall k | 1 <= k <= total ensures k in r {
      assert r[k - 1] == k;
    }
  }

  /** `s.slice(inicio, fin)`: a negative bound counts from the end, every
      bound is clamped to the length, and crossed bounds give `[]`. */
  function JsSlice<T>(s: seq<T>, inicio: int, fin: int): (r: seq<T>)
    ensures |r| <= |s|
    ensures 0 <= inicio && 0 <= fin ==> r == s[Min(inicio, |s|)..Max(Min(inicio, |s|), Min(fin, |s|))]
  {
    var desde := if inicio < 0 then Max(|s| + inicio, 0) else Min(inicio, |s|);
    var hasta := if fin < 0 then Max(|s| + fin, 0) else Min(fin, |s|);
    if desde < hasta then s[desde..hasta] else []
  }

  /** Index of the first item of page `pagina`: `(pagina - 1) * porPagina`. */
  function Inicio(pagina: int, porPagina: nat): (r: int)
    requires porPagina > 0
    ensures 1 <= pagina ==> r >= 0
    ensures pagina < 1 ==> r + porPagina <= 0
  {
    SignoInicio(pagina, porPagina);
    (pagina - 1) * porPagina
  }

  lemma SignoInicio(pagina: int, porPagina: nat)
    requires porPagina > 0
    ensures 1 <= pagina ==> (pagina - 1) * porPagina >= 0
    ensures pagina < 1 ==> (pagina - 1) * porPagina + porPagina <= 0
  {
    if pagina < 1 {
      assert (pagina - 1) * porPagina + porPagina == pagina * porPagina;
    }
  }

  /** The items of page `pagina`: `s.slice(inicio, inicio + porPagina)` with
      `inicio = (pagina - 1) * porPagina`. At most `porPagina` items; from
      page 1 on, exactly the items from `inicio` up to the next page. */
  function Pagina<T>(s: seq<T>, pagina: int, porPagina: nat): (r: seq<T>)
    requires porPagina > 0
    ensures |r| <= porPagina
    ensures 1 <= pagina ==>
      r == s[Min(Inicio(pagina, porPagina), |s|)..Min(Inicio(pagina, porPagina) + porPagina, |s|)]
  {
    var inicio := Inicio(pagina, porPagina);
    JsSliceLength(s, inicio, inicio + porPagina);
    JsSlice(s, inicio, inicio + porPagina)
  }

  lemma JsSliceLength<T>(s: seq<T>, inicio: int, fin: int)
    requires inicio <= fin
    ensures |JsSlice(s, inicio, fin)| <= fin - inicio
  {
  }

  /** A listed page (1 <= pagina <= number of pages) is never empty. */
  lemma PaginaListadaNoVacia<T>(s: seq<T>, pagina: int, porPagina: nat)
    requires porPagina > 0
    requires 1 <= pagina <= TotalPaginas(|s|, porPagina)
    ensures |Pagina(s, pagina, porPagina)| > 0
  {
    var t := TotalPaginas(|s|, porPagina);
    assert Inicio(pagina, porPagina) <= (t - 1) * porPagina by {
      MulMonotone(pagina - 1, t - 1, porPagina);
    }
  }

  lemma MulMonotone(a: int, b: int, c: nat)
    requires a <= b
    ensures a * c <= b * c
  {
  }

  /** Every item sits on a listed page: item `k` is entry `k % porPagina` of
      page `k / porPagina + 1`. */
  lemma ItemEnSuPagina<T>(s: seq<T>, k: nat, porPagina: nat)
    requires porPagina > 0 && k < |s|
    ensures 1 <= k / porPagina + 1 <= TotalPaginas(|s|, porPagina)
    ensures k % porPagina < |Pagina(s, k / porPagina + 1, porPagina)|
    ensures Pagina(s, k / porPagina + 1, porPagina)[k % porPagina] == s[k]
  {
    var p := k / porPagina + 1;
    var t := TotalPaginas(|s|, porPagina);
    assert k == Inicio(p, porPagina) + k % porPagina;
    assert p <= t by {
      if p > t {
        MulMonotone(t, p - 1, porPagina);
      }
    }
  }
}
