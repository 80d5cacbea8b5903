/**
 * The restaurant order board (`src/views/puntodeventa/gestiondepedidos.tsx`): orders filtered
 * by status, coloured by status, and moved between statuses with one button per status.
 */
module GestionPedidos {
  import opened Search

  /** An order's status; the board has no other. */
  datatype Estado = Recibido | Listo | Entregado

  datatype Pedido = Pedido(id: int, name: string, client: string, total: real, status: Estado)

  /** The string the status is stored as. */
  function EstadoTexto(e: Estado): (r: string)
    ensures r in ["recibido", "listo", "entregado"]
  {
    match e
    case Recibido => "recibido"
    case Listo => "listo"
    case Entregado => "entregado"
  }

  /** The status filter's options, in the select's order. */
  const Opciones: seq<string> := ["todos", "recibido", "listo", "entregado", "enespera"]

  /** `filter === 'todos' ? true : order.status === filter`. */
  predicate Coincide(filtro: string, p: Pedido) {
    filtro == "todos" || EstadoTexto(p.status) == filtro
  }

  function CoincideCon(filtro: string): Pedido -> bool { p => Coincide(filtro, p) }

  /** `filteredOrders`: exactly the orders that pass the filter, in board order. */
  function FilteredOrders(pedidos: seq<Pedido>, filtro: string): (r: seq<Pedido>)
    ensures forall p :: p in r ==> p in pedidos && Coincide(filtro, p)
    ensures forall p :: p in pedidos && Coincide(filtro, p) ==> p in r
    ensures IsSubsequence(r, pedidos)
    ensures filtro == "todos" ==> r == pedidos
  {
    var r := Filter(pedidos, CoincideCon(filtro));
    assert filtro == "todos" ==> r == pedidos by {
      if filtro == "todos" {
        FilterAll(pedidos, CoincideCon(filtro));
      }
    }
    assert forall p :: p in r ==> p in pedidos && Coincide(filtro, p) by {
      forall p | p in r ensures p in pedidos && Coincide(filtro, p) {
        var i :| 0 <= i < |r| && r[i] == p;
      }
    }
    assert forall p :: p in pedidos && Coincide(filtro, p) ==> p in r by {
      forall p | p in pedidos && Coincide(filtro, p) ensures p in r {
        var i :| 0 <= i < |pedidos| && pedidos[i] == p;
      }
    }
    r
  }

  /** A status filter shows exactly the orders with that status. */
  lemma FiltroPorEstado(pedidos: seq<Pedido>, e: Estado, p: Pedido)
    requires p in pedidos
    ensures p in FilteredOrders(pedidos, EstadoTexto(e)) <==> p.status == e
  {
    assert EstadoTexto(p.status) == EstadoTexto(e) ==> p.status == e;
  }

  /** 'En espera' is offered but no order can have that status: it always shows nothing. */
  lemma {:induction false} EnEsperaVacio(pedidos: seq<Pedido>)
    ensures FilteredOrders(pedidos, "enespera") == []
  {
    if pedidos != [] {
      EnEsperaVacio(pedidos[1..]);
      assert !CoincideCon("enespera")(pedidos[0]);
    }
  }

  /** `getStatusColor`: each status has its own colour; the fallback 'gray' is never returned. */
  function GetStatusColor(e: Estado): (r: string)
    ensures r == "red" <==> e == Recibido
    ensures r == "yellow" <==> e == Listo
    ensures r == "green" <==> e == Entregado
    ensures r != "gray"
  {
    match e
    case Recibido => "red"
    case Listo => "yellow"
    case Entregado => "green"
  }

  /** A status button is disabled exactly on the order's current status. */
  function BotonDeshabilitado(p: Pedido, boton: Estado): (r: bool)
    ensures r <==> p.status == boton
  {
    p.status == boton
  }

  /** A status button takes its status's colour when it is the current one, and is gray otherwise. */
  function ColorBoton(p: Pedido, boton: Estado): (r: string)
    ensures r != "gray" <==> BotonDeshabilitado(p, boton)
    ensures BotonDeshabilitado(p, boton) ==> r == GetStatusColor(p.status)
  {
    if p.status == boton then GetStatusColor(boton) else "gray"
  }

  /** The orders after `changeOrderStatus`: every order with the id gets the new status. */
  function CambiarEstado(pedidos: seq<Pedido>, id: int, nuevo: Estado): (r: seq<Pedido>)
    ensures |r| == |pedidos|
    ensures forall i :: 0 <= i < |r| && pedidos[i].id == id ==> r[i] == pedidos[i].(status := nuevo)
    ensures forall i :: 0 <= i < |r| && pedidos[i].id != id ==> r[i] == pedidos[i]
  {
    if pedidos == [] then []
    else [if pedidos[0].id == id then pedidos[0].(status := nuevo) else pedidos[0]]
         + CambiarEstado(pedidos[1..], id, nuevo)
  }

  /** Setting the same status twice is the same as setting it once. */
  lemma CambiarEstadoIdempotente(pedidos: seq<Pedido>, id: int, nuevo: Estado)
    ensures CambiarEstado(CambiarEstado(pedidos, id, nuevo), id, nuevo) == CambiarEstado(pedidos, id, nuevo)
  {
  }

  /** After a change, the changed order is found under its new status's filter and under no other status. */
  lemma CambiadoApareceEnSuFiltro(pedidos: seq<Pedido>, i: nat, nuevo: Estado, otro: Estado)
    requires i < |pedidos|
    requires otro != nuevo
    ensures var r := CambiarEstado(pedidos, pedidos[i].id, nuevo);
      r[i] in FilteredOrders(r, EstadoTexto(nuevo)) && r[i] !in FilteredOrders(r, EstadoTexto(otro))
  {
    var r := CambiarEstado(pedidos, pedidos[i].id, nuevo);
    FiltroPorEstado(r, nuevo, r[i]);
    FiltroPorEstado(r, otro, r[i]);
  }

  /** The sample orders the board loads on mount. */
  const PedidosEjemplo: seq<Pedido> := [
    Pedido(1, "Hamburguesa Deluxe", "Juan Pérez", 15.99, Recibido),
    Pedido(2, "Pizza Familiar", "María García", 22.50, Listo),
    Pedido(3, "Ensalada César", "Carlos Rodríguez", 10.99, Entregado),
    Pedido(4, "Pasta Alfredo", "Ana Martínez", 18.75, Recibido),
    Pedido(5, "Sushi Variado", "Luis Sánchez", 30.00, Listo)
  ]

  class Board {
    var orders: seq<Pedido>
    var filter: string

    /** The filter is one of the select's options. */
    ghost predicate Valid()
      reads this
    {
      filter in Opciones
    }

    /** Mount: no orders yet, filter 'todos'. */
    constructor()
      ensures Valid() && orders == [] && filter == "todos"
    {
      orders := [];
      filter := "todos";
    }

    /** The mount effect's `fetchData`: the sample orders. */
    method FetchData()
      requires Valid()
      modifies this
      ensures Valid() && orders == PedidosEjemplo && filter == old(filter)
    {
      orders := PedidosEjemplo;
    }

    /** The status select. */
    method SetFilter(f: string)
      requires f in Opciones
      modifies this
      ensures Valid() && filter == f && orders == old(orders)
    {
      filter := f;
    }

    /** `changeOrderStatus`: the orders with `orderId` get `newStatus`; nothing else changes. */
    method ChangeOrderStatus(orderId: int, newStatus: Estado)
      requires Valid()
      modifies this
      ensures Valid() && orders == CambiarEstado(old(orders), orderId, newStatus) && filter == old(filter)
    {
      orders := CambiarEstado(orders, orderId, newStatus);
    }

    /** The cards shown. */
    function Visibles(): (r: seq<Pedido>)
      reads this
      ensures r == FilteredOrders(orders, filter)
      ensures filter == "enespera" ==> r == []
    {
      EnEsperaVacio(orders);
      FilteredOrders(orders, filter)
    }
  }
}
