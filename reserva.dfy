/** The reservation page: the URL names a service (`id`, and `type`, 'corte'
    or 'barba'); the page loads that service, then the barbers who can do it,
    shows one button per barber and lets the client select at most one. The
    two responses are parameters; price formatting (Intl.NumberFormat) is the
    parameter `formatPrice`. */
module Reserva {
  import opened Text
  import Barberos

  type Barber = Barberos.Barber

  const MissingParamsMessage: string := "No se especificó qué servicio deseas reservar."
  const GenericErrorMessage: string := "Hubo un error al cargar la información del servicio."
  const BarbersEndpoint: string := "/api/barberos"
  const CortesPrefix: string := "/api/cortes_admin/"
  const BarbasPrefix: string := "/api/barbas_admin/"

  // ---------------------------------------------------------------------
  // Responses

  /** A fetch response: its status and its body, None when response.json()
      rejects. */
  datatype Response<T> = Response(status: int, body: Option<T>)

  /** response.ok. */
  predicate Ok<T>(r: Response<T>) {
    200 <= r.status <= 299
  }

  /** Why a load failed: a 404, another non-ok status, a rejected fetch, or
      a body that is not JSON. */
  datatype LoadError = NotFound | HttpError | NetworkError | BadBody

  datatype Outcome<T> = Loaded(value: T) | Failed(error: LoadError)

  // ---------------------------------------------------------------------
  // The service

  /** A row of /api/cortes_admin/{id} or /api/barbas_admin/{id}. */
  datatype Service = Service(nombre: string, imagen: string, descripcion: Option<string>, precio: Option<int>)

  /** The URL requested for the service: the cuts endpoint for 'corte', the
      beards endpoint for every other type. */
  function Endpoint(tipo: string, id: string): (url: string)
    ensures |url| == |CortesPrefix| + |id| && url[|CortesPrefix|..] == id
    ensures url[..|CortesPrefix|] == CortesPrefix <==> tipo == "corte"
    ensures url[..|CortesPrefix|] == BarbasPrefix <==> tipo != "corte"
  {
    assert CortesPrefix != BarbasPrefix by { assert CortesPrefix[5] != BarbasPrefix[5]; }
    (if tipo == "corte" then CortesPrefix else BarbasPrefix) + id
  }

  /** Different services are different URLs: the URL determines the id, and
      whether the type was 'corte'. */
  lemma EndpointInjective(t1: string, i1: string, t2: string, i2: string)
    requires Endpoint(t1, i1) == Endpoint(t2, i2)
    ensures i1 == i2
    ensures t1 == "corte" <==> t2 == "corte"
  {
    var u := Endpoint(t1, i1);
    assert i1 == u[|CortesPrefix|..] == i2;
  }

  /** cargarInformacionServicio: a non-ok status fails, 404 as "not found";
      a readable body is the service. */
  function CheckService(resp: Option<Response<Service>>): (r: Outcome<Service>)
    ensures r == Failed(NotFound) <==> resp.Some? && resp.value.status == 404
    ensures r.Loaded? <==> resp.Some? && Ok(resp.value) && resp.value.body.Some?
    ensures r.Loaded? ==> r.value == resp.value.body.value
    ensures r == Failed(HttpError) <==> resp.Some? && !Ok(resp.value) && resp.value.status != 404
  {
    if resp.None? then Failed(NetworkError)
    else if !Ok(resp.value) then
      if resp.value.status == 404 then Failed(NotFound) else Failed(HttpError)
    else if resp.value.body.None? then Failed(BadBody)
    else Loaded(resp.value.body.value)
  }

  const DefaultDescription: string := "Descripción no disponible."
  const TitleSuffix: string := " - Prestige Barbers"

  /** What actualizarInformacionServicio writes into the page. */
  datatype ServiceView = ServiceView(
    imageSrc: string,
    imageAlt: string,
    serviceType: string,
    title: string,
    name: string,
    description: string)

  /** `if (servicio.precio)`: a price that is present and not 0. */
  predicate Priced(precio: Option<int>) {
    precio.Some? && precio.value != 0
  }

  /** `servicio.descripcion || 'Descripción no disponible.'`. */
  function BaseDescription(s: Service): (d: string)
    ensures d != ""
    ensures Truthy(s.descripcion) ==> d == s.descripcion.value
    ensures !Truthy(s.descripcion) ==> d == DefaultDescription
  {
    if Truthy(s.descripcion) then s.descripcion.value else DefaultDescription
  }

  function ViewOf(s: Service, tipo: string, formatPrice: int -> string): ServiceView {
    ServiceView(
      s.imagen,
      s.nombre,
      if tipo == "corte" then "Corte de Cabello" else "Corte de Barba",
      s.nombre + TitleSuffix,
      s.nombre,
      BaseDescription(s) + (if Priced(s.precio) then " Precio: " + formatPrice(s.precio.value) else ""))
  }

  /** The description starts with the service's own text (or the default
      when it has none) and is exactly that text when there is no price; the
      title ends with the shop's name. */
  lemma ViewDescription(s: Service, tipo: string, formatPrice: int -> string)
    ensures BaseDescription(s) <= ViewOf(s, tipo, formatPrice).description
    ensures ViewOf(s, tipo, formatPrice).description == BaseDescription(s) <==> !Priced(s.precio)
    ensures !Truthy(s.descripcion) ==> DefaultDescription <= ViewOf(s, tipo, formatPrice).description
    ensures ViewOf(s, tipo, formatPrice).title[|s.nombre|..] == TitleSuffix
  {
    var v := ViewOf(s, tipo, formatPrice);
    if Priced(s.precio) {
      assert |v.description| > |BaseDescription(s)|;
    }
  }

  // ---------------------------------------------------------------------
  // The barbers who can do the service

  /** The filter of cargarBarberosEspecializados: hairdressers and 'Ambos'
      for a cut, barbers and 'Ambos' for a beard, nobody for any other type. */
  predicate Offers(tipo: string, barberTipo: string) {
    || (tipo == "corte" && (barberTipo == "Peluquero" || barberTipo == "Ambos"))
    || (tipo == "barba" && (barberTipo == "Barbero" || barberTipo == "Ambos"))
  }

  function Available(todos: seq<Barber>, tipo: string): (r: seq<Barber>)
    ensures |r| <= |todos|
    ensures forall b :: b in r <==> b in todos && Offers(tipo, b.tipo)
  {
    if todos == [] then []
    else (if Offers(tipo, todos[0].tipo) then [todos[0]] else []) + Available(todos[1..], tipo)
  }

  /** `a` is `b` with some elements left out, in the same order. */
  predicate Subsequence<T(==)>(a: seq<T>, b: seq<T>) {
    a == [] || (b != [] && ((a[0] == b[0] && Subsequence(a[1..], b[1..])) || Subsequence(a, b[1..])))
  }

  /** The filter keeps the order of /api/barberos. */
  lemma {:induction false} AvailableIsSubsequence(todos: seq<Barber>, tipo: string)
    ensures Subsequence(Available(todos, tipo), todos)
  {
    if todos != [] {
      AvailableIsSubsequence(todos[1..], tipo);
      var rest := Available(todos[1..], tipo);
      if Offers(tipo, todos[0].tipo) {
        assert Available(todos, tipo) == [todos[0]] + rest;
        assert ([todos[0]] + rest)[1..] == rest;
      } else {
        assert Available(todos, tipo) == rest;
        assert Subsequence(rest, todos[1..]);
      }
    }
  }

  /** A type other than 'corte' and 'barba' offers nobody. */
  lemma {:induction false} AvailableUnknownType(todos: seq<Barber>, tipo: string)
    requires tipo != "corte" && tipo != "barba"
    ensures Available(todos, tipo) == []
  {
    if todos != [] {
      AvailableUnknownType(todos[1..], tipo);
    }
  }

  /** A barber whose tipo is none of the three known ones is labelled
      "Barbero y Peluquero" on the barbers page, yet is offered for no
      service here. */
  lemma UnknownTipoNeverOffered(barberTipo: string)
    requires barberTipo != "Peluquero" && barberTipo != "Barbero" && barberTipo != "Ambos"
    ensures Barberos.TipoLabel(barberTipo) == "Barbero y Peluquero"
    ensures !Offers("corte", barberTipo) && !Offers("barba", barberTipo)
  {
  }

  /** The label above the buttons. */
  function BarbersLabel(tipo: string, disponibles: seq<Barber>): string {
    if tipo == "corte" then
      (if |disponibles| > 0 then "Peluqueros Disponibles" else "No hay peluqueros disponibles")
    else
      (if |disponibles| > 0 then "Barberos Disponibles" else "No hay barberos disponibles")
  }

  /** The label says "No hay" exactly when nobody can do the service, and
      speaks of hairdressers exactly for a cut. */
  lemma LabelSaysNone(tipo: string, disponibles: seq<Barber>)
    ensures |BarbersLabel(tipo, disponibles)| >= 6
    ensures BarbersLabel(tipo, disponibles)[..6] == "No hay" <==> disponibles == []
    ensures tipo == "corte" <==>
              BarbersLabel(tipo, disponibles) in {"Peluqueros Disponibles", "No hay peluqueros disponibles"}
  {
    var l := BarbersLabel(tipo, disponibles);
    if disponibles != [] {
      assert l[0] != 'N';
    }
  }

  // ---------------------------------------------------------------------
  // Buttons

  /** A barber button: data-barbero-id, data-barbero-nombre, the background
      image and the title. */
  datatype Button = Button(barberId: int, nombre: string, backgroundImage: string, title: string)

  /** The content of #barbersContainer. */
  datatype Container = NoBarbersMessage | Buttons(buttons: seq<Button>)

  /** `url(${barbero.imagen})`: a missing image is written as null. */
  function ButtonFor(b: Barber): (button: Button)
    ensures button.barberId == b.id && button.nombre == b.nombre && button.title == b.nombre
  {
    Button(b.id, b.nombre, "url(" + (if b.imagen.Some? then b.imagen.value else "null") + ")", b.nombre)
  }

  /** renderizarBarberos: the message for an empty list, otherwise one
      button per barber, in list order. */
  method RenderizarBarberos(barberos: seq<Barber>) returns (c: Container)
    ensures c == NoBarbersMessage <==> barberos == []
    ensures c.Buttons? ==> |c.buttons| == |barberos|
    ensures c.Buttons? ==> forall i :: 0 <= i < |barberos| ==> c.buttons[i] == ButtonFor(barberos[i])
  {
    if |barberos| == 0 {
      return NoBarbersMessage;
    }
    var buttons: seq<Button> := [];
    for i := 0 to |barberos|
      invariant |buttons| == i
      invariant forall j :: 0 <= j < i ==> buttons[j] == ButtonFor(barberos[j])
    {
      buttons := buttons + [ButtonFor(barberos[i])];
    }
    c := Buttons(buttons);
  }

  // ---------------------------------------------------------------------
  // Selecting a barber

  /** No two buttons are selected at once. */
  predicate AtMostOne(selected: seq<bool>) {
    forall i, j :: 0 <= i < |selected| && 0 <= j < |selected| && selected[i] && selected[j] ==> i == j
  }

  /** The click handler on the container, for a click on button `target`
      (None when the click is not inside a button): a selected button is
      deselected; otherwise every button is deselected and the target
      selected. */
  function ClickResult(selected: seq<bool>, target: Option<nat>): (r: seq<bool>)
    requires target.Some? ==> target.value < |selected|
    ensures |r| == |selected|
  {
    if target.None? then selected
    else if selected[target.value] then selected[target.value := false]
    else seq(|selected|, i => i == target.value)
  }

  /** Once at most one button is selected, a click on button t leaves t
      selected exactly when it was not, and every other button unselected. */
  lemma ClickToggles(selected: seq<bool>, t: nat)
    requires AtMostOne(selected) && t < |selected|
    ensures ClickResult(selected, Some(t)) == seq(|selected|, i => i == t && !selected[t])
  {
    var r := ClickResult(selected, Some(t));
    forall i | 0 <= i < |selected|
      ensures r[i] == (i == t && !selected[t])
    {
      if selected[t] && i != t {
        assert !selected[i];
      }
    }
  }

  /** At most one button is ever selected. */
  lemma ClickKeepsAtMostOne(selected: seq<bool>, target: Option<nat>)
    requires AtMostOne(selected)
    requires target.Some? ==> target.value < |selected|
    ensures AtMostOne(ClickResult(selected, target))
  {
    if target.Some? {
      ClickToggles(selected, target.value);
    }
  }

  /** Clicking the same button twice gives back the selection of before,
      as far as that button is concerned: selected buttons end unselected
      and unselected ones end selected after one click, unselected after
      two. */
  lemma ClickTwice(selected: seq<bool>, t: nat)
    requires AtMostOne(selected) && t < |selected|
    ensures ClickResult(selected, Some(t))[t] == !selected[t]
    ensures ClickResult(ClickResult(selected, Some(t)), Some(t)) == seq(|selected|, i => i == t && selected[t])
  {
    ClickToggles(selected, t);
    var once := ClickResult(selected, Some(t));
    ClickKeepsAtMostOne(selected, Some(t));
    ClickToggles(once, t);
  }

  /** The 'selected' class of each barber button. */
  class BarberButtons {
    var selected: seq<bool>

    ghost predicate Valid()
      reads this
    {
      AtMostOne(selected)
    }

    /** The buttons as renderizarBarberos creates them: none selected. */
    constructor (n: nat)
      ensures Valid() && selected == seq(n, _ => false)
    {
      selected := seq(n, _ => false);
    }

    method Click(target: Option<nat>)
      requires Valid()
      requires target.Some? ==> target.value < |selected|
      modifies this
      ensures Valid()
      ensures selected == ClickResult(old(selected), target)
    {
      if target.None? {
        return;
      }
      var t := target.value;
      if selected[t] {
        selected := selected[t := false];
      } else {
        var i := 0;
        while i < |selected|
          invariant 0 <= i <= |selected| == |old(selected)|
          invariant forall j :: 0 <= j < i ==> !selected[j]
          invariant forall j :: i <= j < |selected| ==> selected[j] == old(selected)[j]
        {
          selected := selected[i := false];
          i := i + 1;
        }
        selected := selected[t := true];
      }
      ClickKeepsAtMostOne(old(selected), target);
    }
  }

  // ---------------------------------------------------------------------
  // The page

  datatype ReservaPage =
    | ErrorPage(message: string)
    | Ready(service: ServiceView, barbersLabel: string, barbers: Container)

  /** The DOMContentLoaded handler, with the responses of the two requests
      as parameters; `requests` lists the URLs fetched, in order. */
  method LoadReservation(itemId: Option<string>, itemType: Option<string>,
                         serviceResp: Option<Response<Service>>,
                         barbersResp: Option<Response<seq<Barber>>>,
                         formatPrice: int -> string)
    returns (page: ReservaPage, requests: seq<string>)
    ensures !(Truthy(itemId) && Truthy(itemType)) <==> requests == []
    ensures !(Truthy(itemId) && Truthy(itemType)) ==> page == ErrorPage(MissingParamsMessage)
    ensures requests != [] ==>
              && requests[0] == Endpoint(itemType.value, itemId.value)
              && (|requests| == 2 <==> CheckService(serviceResp).Loaded?)
              && |requests| <= 2
              && (|requests| == 2 ==> requests[1] == BarbersEndpoint)
    ensures page.Ready? <==>
              && Truthy(itemId) && Truthy(itemType)
              && CheckService(serviceResp).Loaded?
              && barbersResp.Some? && Ok(barbersResp.value) && barbersResp.value.body.Some?
    ensures requests != [] && page.ErrorPage? ==> page.message == GenericErrorMessage
    ensures page.Ready? ==>
              var tipo := itemType.value;
              var disponibles := Available(barbersResp.value.body.value, tipo);
              && page.service == ViewOf(CheckService(serviceResp).value, tipo, formatPrice)
              && page.barbersLabel == BarbersLabel(tipo, disponibles)
              && (page.barbers == NoBarbersMessage <==> disponibles == [])
              && (page.barbers.Buttons? ==>
                    |page.barbers.buttons| == |disponibles|
                    && forall i :: 0 <= i < |disponibles| ==> page.barbers.buttons[i] == ButtonFor(disponibles[i]))
  {
    if !Truthy(itemId) || !Truthy(itemType) {
      return ErrorPage(MissingParamsMessage), [];
    }
    var id := itemId.value;
    var tipo := itemType.value;
    requests := [Endpoint(tipo, id)];
    var servicio := CheckService(serviceResp);
    if servicio.Failed? {
      return ErrorPage(GenericErrorMessage), requests;
    }
    var view := ViewOf(servicio.value, tipo, formatPrice);
    requests := requests + [BarbersEndpoint];
    if barbersResp.None? || !Ok(barbersResp.value) || barbersResp.value.body.None? {
      return ErrorPage(GenericErrorMessage), requests;
    }
    var disponibles := Available(barbersResp.value.body.value, tipo);
    var container := RenderizarBarberos(disponibles);
    page := Ready(view, BarbersLabel(tipo, disponibles), container);
  }
}
