/** The home page: the same key figures as the dashboard and the
    inventory alert card, shown only when some active item is low or
    depleted, with one line per positive count. */
module Inicio {
  import opened Tipos
  import opened Indicadores
  import opened Tablero

  /** The card's lines, or `None` when the card is not rendered. */
  function TarjetaInventario(k: Kpis): (r: Option<seq<string>>)
    ensures r.Some? <==> k.stockBajo > 0 || k.stockAgotado > 0
    ensures r.Some? ==> |r.value| == (if k.stockBajo > 0 then 1 else 0) + (if k.stockAgotado > 0 then 1 else 0)
  {
    if k.stockBajo > 0 || k.stockAgotado > 0 then
      Some((if k.stockBajo > 0 then ["• " + MensajeStockBajo(k.stockBajo)] else []) +
           (if k.stockAgotado > 0 then ["• " + MensajeAgotados(k.stockAgotado)] else []))
    else None
  }

  /** The home page shows its inventory card exactly when the dashboard
      lists a warning or an error, and the card's lines are those
      alerts' messages, in the same order. */
  lemma {:induction false} TarjetaSiiAlertasDeInventario(k: Kpis)
    ensures TarjetaInventario(k).Some? <==> HayAlerta(Alertas(k), Advertencia) || HayAlerta(Alertas(k), Fallo)
    ensures TarjetaInventario(k).Some? ==>
              var lineas := TarjetaInventario(k).value;
              forall i :: 0 <= i < |lineas| ==>
                Alertas(k)[i].tipo != Informacion && Alertas(k)[i].tipo != Exito &&
                lineas[i] == "• " + Alertas(k)[i].mensaje
  {
    AlertasCorrectas(k);
    var al := Alertas(k);
    if k.stockBajo > 0 {
      assert al[0].tipo == Advertencia;
      if k.stockAgotado > 0 {
        assert al[1].tipo == Fallo;
      }
    } else if k.stockAgotado > 0 {
      assert al[0].tipo == Fallo;
    }
  }
}
