/** The catalog schema: a category owns products, products and tags are linked
    many-to-many, and a product has at most one detail record. Deleting a
    category removes its products; deleting a product removes its detail and
    its tag links; deleting a tag removes only its links. */
module Productos {
  import opened Results
  import opened Columns
  import Decimal

  /** `CharField(max_length=100)`: product, category, dimensions and material. */
  const NombreMax := 100
  /** `Etiquetas.nombre = CharField(max_length=50)`. */
  const EtiquetaMax := 50
  /** `precio = DecimalField(max_digits=10, decimal_places=2)`. */
  const PrecioDigits := 10
  /** `peso = DecimalField(max_digits=6, decimal_places=2)`. */
  const PesoDigits := 6
  /** Both decimal columns keep two places; amounts are held in hundredths. */
  const Places := 2

  datatype Categoria = Categoria(nombre: string)

  datatype Etiqueta = Etiqueta(nombre: string)

  /** `precio` in hundredths. */
  datatype Producto = Producto(nombre: string, precio: int, categoria: nat)

  /** `peso` in hundredths. */
  datatype Detalle = Detalle(producto: nat, dimensiones: string, peso: int, material: string)

  predicate PrecioFits(precio: int)
  {
    Decimal.FitsDecimal(precio, PrecioDigits, Places)
  }

  predicate PesoFits(peso: int)
  {
    Decimal.FitsDecimal(peso, PesoDigits, Places)
  }

  /** A price fits its column exactly when its magnitude is below 10^10 hundredths. */
  lemma PrecioBound(precio: int)
    ensures PrecioFits(precio) <==> -10_000_000_000 < precio < 10_000_000_000
  {
    assert Decimal.Pow10(10) == 10_000_000_000;
  }

  /** A weight fits its column exactly when its magnitude is below 10^6 hundredths. */
  lemma PesoBound(peso: int)
    ensures PesoFits(peso) <==> -1_000_000 < peso < 1_000_000
  {
    assert Decimal.Pow10(6) == 1_000_000;
  }

  predicate ProductoFits(nombre: string, precio: int)
  {
    Required(nombre, NombreMax) && PrecioFits(precio)
  }

  predicate DetalleFits(dimensiones: string, peso: int, material: string)
  {
    Required(dimensiones, NombreMax) && PesoFits(peso) && Required(material, NombreMax)
  }

  const DetallePrefix := "Detalle de "

  /** `DetalleProducto.__str__`: "Detalle de <product name>"; the product name
      can be read back from it. */
  function DetalleStr(producto: Producto): (s: string)
    ensures NombreDeDetalleStr(s) == Some(producto.nombre)
  {
    var s := DetallePrefix + producto.nombre;
    assert s[..|DetallePrefix|] == DetallePrefix;
    assert s[|DetallePrefix|..] == producto.nombre;
    s
  }

  /** Recovers the product name from a detail's display string. */
  function NombreDeDetalleStr(s: string): (r: Option<string>)
    ensures r.Some? <==> |s| >= |DetallePrefix| && s[..|DetallePrefix|] == DetallePrefix
    ensures r.Some? ==> s == DetallePrefix + r.value
  {
    if |s| >= |DetallePrefix| && s[..|DetallePrefix|] == DetallePrefix then Some(s[|DetallePrefix|..]) else None
  }

  // ---------------------------------------------------------------------------
  // Relations over the tables

  /** Ids of the products of category `c`: the rows that deleting the category
      removes with it. */
  function ProductosDe(productos: map<nat, Producto>, c: nat): set<nat>
  {
    set p | p in productos && productos[p].categoria == c
  }

  /** Ids of the details whose product is in `ps`. */
  function DetallesDe(detalles: map<nat, Detalle>, ps: set<nat>): set<nat>
  {
    set d | d in detalles && detalles[d].producto in ps
  }

  /** The links that mention a product in `ps`. */
  function EnlacesDe(enlaces: set<(nat, nat)>, ps: set<nat>): set<(nat, nat)>
  {
    set l | l in enlaces && l.0 in ps
  }

  /** The links that mention tag `t`. */
  function EnlacesDeEtiqueta(enlaces: set<(nat, nat)>, t: nat): set<(nat, nat)>
  {
    set l | l in enlaces && l.1 == t
  }

  /** `producto.etiquetas`: the tags linked to product `p`. */
  function EtiquetasDe(enlaces: set<(nat, nat)>, p: nat): (ts: set<nat>)
    ensures forall t :: t in ts <==> (p, t) in enlaces
  {
    set l | l in enlaces && l.0 == p :: l.1
  }

  /** `OneToOneField`: no two details share a product. */
  predicate DetallesOneToOne(detalles: map<nat, Detalle>)
  {
    forall a, b :: a in detalles && b in detalles && a != b ==> detalles[a].producto != detalles[b].producto
  }

  /** The detail table's invariant: ids below the counter, every row within
      its columns and pointing at a product in `productos`, one-to-one. */
  predicate DetallesValid(detalles: map<nat, Detalle>, productos: set<nat>, next: nat)
  {
    && (forall d :: d in detalles ==>
          && 0 < d < next
          && DetalleFits(detalles[d].dimensiones, detalles[d].peso, detalles[d].material)
          && detalles[d].producto in productos)
    && DetallesOneToOne(detalles)
  }

  /** Writing a checked detail under an id below the counter keeps the invariant. */
  lemma DetallesValidSet(detalles: map<nat, Detalle>, productos: set<nat>, next: nat, k: nat, d: Detalle, next': nat)
    requires DetallesValid(detalles, productos, next)
    requires 0 < k < next' && next <= next'
    requires DetalleFits(d.dimensiones, d.peso, d.material) && d.producto in productos
    requires !DetalleTaken(detalles, d.producto, Some(k))
    ensures DetallesValid(detalles[k := d], productos, next')
  {
  }

  /** Some detail other than `self` already belongs to `producto`. */
  predicate DetalleTaken(detalles: map<nat, Detalle>, producto: nat, self: Option<nat>)
  {
    exists d :: d in detalles && Some(d) != self && detalles[d].producto == producto
  }

  // ---------------------------------------------------------------------------
  // The store

  class Catalog {
    var categorias: map<nat, Categoria>
    var productos: map<nat, Producto>
    var etiquetas: map<nat, Etiqueta>
    /** The `Producto.etiquetas` link table, as (product id, tag id) pairs. */
    var enlaces: set<(nat, nat)>
    var detalles: map<nat, Detalle>
    /** Next id of each autoincrement table; ids are never reused. */
    var nextCategoria: nat
    var nextProducto: nat
    var nextEtiqueta: nat
    var nextDetalle: nat

    /** Every row stays within its declared bounds, every foreign key and link
        names existing rows, and no product has two details. */
    ghost predicate Valid()
      reads this
    {
      && 0 < nextCategoria && 0 < nextProducto && 0 < nextEtiqueta && 0 < nextDetalle
      && (forall c :: c in categorias ==> 0 < c < nextCategoria && Required(categorias[c].nombre, NombreMax))
      && (forall p :: p in productos ==>
            && 0 < p < nextProducto
            && ProductoFits(productos[p].nombre, productos[p].precio)
            && productos[p].categoria in categorias)
      && (forall t :: t in etiquetas ==> 0 < t < nextEtiqueta && Required(etiquetas[t].nombre, EtiquetaMax))
      && (forall l :: l in enlaces ==> l.0 in productos && l.1 in etiquetas)
      && DetallesValid(detalles, productos.Keys, nextDetalle)
    }

    constructor ()
      ensures Valid()
      ensures categorias == map[] && productos == map[] && etiquetas == map[]
      ensures enlaces == {} && detalles == map[]
      ensures nextCategoria == 1 && nextProducto == 1 && nextEtiqueta == 1 && nextDetalle == 1
    {
      categorias, productos, etiquetas, enlaces, detalles := map[], map[], map[], {}, map[];
      nextCategoria, nextProducto, nextEtiqueta, nextDetalle := 1, 1, 1, 1;
    }

    // ----- Categoria

    method CreateCategoria(nombre: string) returns (r: Result<nat>)
      requires Valid()
      modifies this
      ensures Valid()
      ensures !Required(nombre, NombreMax) ==> r == Err(Invalid)
      ensures r.Err? ==> unchanged(this)
      ensures r.Ok? <==> Required(nombre, NombreMax)
      ensures r.Ok? ==>
        && Required(nombre, NombreMax)
        && r.value == old(nextCategoria) && r.value !in old(categorias)
        && categorias == old(categorias)[r.value := Categoria(nombre)]
        && nextCategoria == old(nextCategoria) + 1
        && productos == old(productos) && etiquetas == old(etiquetas)
        && enlaces == old(enlaces) && detalles == old(detalles)
        && nextProducto == old(nextProducto) && nextEtiqueta == old(nextEtiqueta)
        && nextDetalle == old(nextDetalle)
    {
      if !Required(nombre, NombreMax) {
        return Err(Invalid);
      }
      r := Ok(nextCategoria);
      categorias := categorias[nextCategoria := Categoria(nombre)];
      nextCategoria := nextCategoria + 1;
    }

    method UpdateCategoria(id: nat, nombre: string) returns (r: Outcome)
      requires Valid()
      modifies this
      ensures Valid()
      ensures id !in old(categorias) ==> r == Failed(NotFound)
      ensures id in old(categorias) && !Required(nombre, NombreMax) ==> r == Failed(Invalid)
      ensures r.Failed? ==> unchanged(this)
      ensures r.Done? <==> id in old(categorias) && Required(nombre, NombreMax)
      ensures r.Done? ==>
        && id in old(categorias) && Required(nombre, NombreMax)
        && categorias == old(categorias)[id := Categoria(nombre)]
        && productos == old(productos) && etiquetas == old(etiquetas)
        && enlaces == old(enlaces) && detalles == old(detalles)
        && nextCategoria == old(nextCategoria) && nextProducto == old(nextProducto)
        && nextEtiqueta == old(nextEtiqueta) && nextDetalle == old(nextDetalle)
    {
      if id !in categorias {
        return Failed(NotFound);
      }
      if !Required(nombre, NombreMax) {
        return Failed(Invalid);
      }
      categorias := categorias[id := Categoria(nombre)];
      r := Done;
    }

    /** Deletes a category, its products, and their details and tag links. */
    method DeleteCategoria(id: nat) returns (r: Outcome)
      requires Valid()
      modifies this
      ensures Valid()
      ensures id !in old(categorias) ==> r == Failed(NotFound) && unchanged(this)
      ensures id in old(categorias) ==>
        && r == Done
        && categorias == old(categorias) - {id}
        && productos == old(productos) - ProductosDe(old(productos), id)
        && detalles == old(detalles) - DetallesDe(old(detalles), ProductosDe(old(productos), id))
        && enlaces == old(enlaces) - EnlacesDe(old(enlaces), ProductosDe(old(productos), id))
        && etiquetas == old(etiquetas)
        && nextCategoria == old(nextCategoria) && nextProducto == old(nextProducto)
        && nextEtiqueta == old(nextEtiqueta) && nextDetalle == old(nextDetalle)
    {
      if id !in categorias {
        return Failed(NotFound);
      }
      var owned := ProductosDe(productos, id);
      detalles := detalles - DetallesDe(detalles, owned);
      enlaces := enlaces - EnlacesDe(enlaces, owned);
      productos := productos - owned;
      categorias := categorias - {id};
      r := Done;
    }

    // ----- Etiquetas

    method CreateEtiqueta(nombre: string) returns (r: Result<nat>)
      requires Valid()
      modifies this
      ensures Valid()
      ensures !Required(nombre, EtiquetaMax) ==> r == Err(Invalid)
      ensures r.Err? ==> unchanged(this)
      ensures r.Ok? <==> Required(nombre, EtiquetaMax)
      ensures r.Ok? ==>
        && Required(nombre, EtiquetaMax)
        && r.value == old(nextEtiqueta) && r.value !in old(etiquetas)
        && etiquetas == old(etiquetas)[r.value := Etiqueta(nombre)]
        && nextEtiqueta == old(nextEtiqueta) + 1
        && categorias == old(categorias) && productos == old(productos)
        && enlaces == old(enlaces) && detalles == old(detalles)
        && nextCategoria == old(nextCategoria) && nextProducto == old(nextProducto)
        && nextDetalle == old(nextDetalle)
    {
      if !Required(nombre, EtiquetaMax) {
        return Err(Invalid);
      }
      r := Ok(nextEtiqueta);
      etiquetas := etiquetas[nextEtiqueta := Etiqueta(nombre)];
      nextEtiqueta := nextEtiqueta + 1;
    }

    method UpdateEtiqueta(id: nat, nombre: string) returns (r: Outcome)
      requires Valid()
      modifies this
      ensures Valid()
      ensures id !in old(etiquetas) ==> r == Failed(NotFound)
      ensures id in old(etiquetas) && !Required(nombre, EtiquetaMax) ==> r == Failed(Invalid)
      ensures r.Failed? ==> unchanged(this)
      ensures r.Done? <==> id in old(etiquetas) && Required(nombre, EtiquetaMax)
      ensures r.Done? ==>
        && id in old(etiquetas) && Required(nombre, EtiquetaMax)
        && etiquetas == old(etiquetas)[id := Etiqueta(nombre)]
        && categorias == old(categorias) && productos == old(productos)
        && enlaces == old(enlaces) && detalles == old(detalles)
        && nextCategoria == old(nextCategoria) && nextProducto == old(nextProducto)
        && nextEtiqueta == old(nextEtiqueta) && nextDetalle == old(nextDetalle)
    {
      if id !in etiquetas {
        return Failed(NotFound);
      }
      if !Required(nombre, EtiquetaMax) {
        return Failed(Invalid);
      }
      etiquetas := etiquetas[id := Etiqueta(nombre)];
      r := Done;
    }

    /** Deletes a tag and the links that mention it; every product stays. */
    method DeleteEtiqueta(id: nat) returns (r: Outcome)
      requires Valid()
      modifies this
      ensures Valid()
      ensures id !in old(etiquetas) ==> r == Failed(NotFound) && unchanged(this)
      ensures id in old(etiquetas) ==>
        && r == Done
        && etiquetas == old(etiquetas) - {id}
        && enlaces == old(enlaces) - EnlacesDeEtiqueta(old(enlaces), id)
        && categorias == old(categorias) && productos == old(productos) && detalles == old(detalles)
        && nextCategoria == old(nextCategoria) && nextProducto == old(nextProducto)
        && nextEtiqueta == old(nextEtiqueta) && nextDetalle == old(nextDetalle)
    {
      if id !in etiquetas {
        return Failed(NotFound);
      }
      enlaces := enlaces - EnlacesDeEtiqueta(enlaces, id);
      etiquetas := etiquetas - {id};
      r := Done;
    }

    // ----- Producto

    method CreateProducto(nombre: string, precio: int, categoria: nat) returns (r: Result<nat>)
      requires Valid()
      modifies this
      ensures Valid()
      ensures !ProductoFits(nombre, precio) ==> r == Err(Invalid)
      ensures ProductoFits(nombre, precio) && categoria !in old(categorias) ==> r == Err(BadRef)
      ensures r.Err? ==> unchanged(this)
      ensures r.Ok? <==> ProductoFits(nombre, precio) && categoria in old(categorias)
      ensures r.Ok? ==>
        && ProductoFits(nombre, precio) && categoria in old(categorias)
        && r.value == old(nextProducto) && r.value !in old(productos)
        && productos == old(productos)[r.value := Producto(nombre, precio, categoria)]
        && nextProducto == old(nextProducto) + 1
        && categorias == old(categorias) && etiquetas == old(etiquetas)
        && enlaces == old(enlaces) && detalles == old(detalles)
        && nextCategoria == old(nextCategoria) && nextEtiqueta == old(nextEtiqueta)
        && nextDetalle == old(nextDetalle)
    {
      if !ProductoFits(nombre, precio) {
        return Err(Invalid);
      }
      if categoria !in categorias {
        return Err(BadRef);
      }
      r := Ok(nextProducto);
      productos := productos[nextProducto := Producto(nombre, precio, categoria)];
      nextProducto := nextProducto + 1;
    }

    method UpdateProducto(id: nat, nombre: string, precio: int, categoria: nat) returns (r: Outcome)
      requires Valid()
      modifies this
      ensures Valid()
      ensures id !in old(productos) ==> r == Failed(NotFound)
      ensures id in old(productos) && !ProductoFits(nombre, precio) ==> r == Failed(Invalid)
      ensures (id in old(productos) && ProductoFits(nombre, precio)
               && categoria !in old(categorias)) ==> r == Failed(BadRef)
      ensures r.Failed? ==> unchanged(this)
      ensures r.Done? <==> id in old(productos) && ProductoFits(nombre, precio) && categoria in old(categorias)
      ensures r.Done? ==>
        && id in old(productos) && ProductoFits(nombre, precio) && categoria in old(categorias)
        && productos == old(productos)[id := Producto(nombre, precio, categoria)]
        && categorias == old(categorias) && etiquetas == old(etiquetas)
        && enlaces == old(enlaces) && detalles == old(detalles)
        && nextCategoria == old(nextCategoria) && nextProducto == old(nextProducto)
        && nextEtiqueta == old(nextEtiqueta) && nextDetalle == old(nextDetalle)
    {
      if id !in productos {
        return Failed(NotFound);
      }
      if !ProductoFits(nombre, precio) {
        return Failed(Invalid);
      }
      if categoria !in categorias {
        return Failed(BadRef);
      }
      productos := productos[id := Producto(nombre, precio, categoria)];
      r := Done;
    }

    /** Deletes a product, its detail and its tag links; no tag is removed. */
    method DeleteProducto(id: nat) returns (r: Outcome)
      requires Valid()
      modifies this
      ensures Valid()
      ensures id !in old(productos) ==> r == Failed(NotFound) && unchanged(this)
      ensures id in old(productos) ==>
        && r == Done
        && productos == old(productos) - {id}
        && detalles == old(detalles) - DetallesDe(old(detalles), {id})
        && enlaces == old(enlaces) - EnlacesDe(old(enlaces), {id})
        && categorias == old(categorias) && etiquetas == old(etiquetas)
        && nextCategoria == old(nextCategoria) && nextProducto == old(nextProducto)
        && nextEtiqueta == old(nextEtiqueta) && nextDetalle == old(nextDetalle)
    {
      if id !in productos {
        return Failed(NotFound);
      }
      detalles := detalles - DetallesDe(detalles, {id});
      enlaces := enlaces - EnlacesDe(enlaces, {id});
      productos := productos - {id};
      r := Done;
    }

    /** `producto.etiquetas.add(etiqueta)`: inserting a present pair changes nothing. */
    method AddEtiqueta(producto: nat, etiqueta: nat) returns (r: Outcome)
      requires Valid()
      modifies this
      ensures Valid()
      ensures producto !in old(productos) ==> r == Failed(NotFound)
      ensures producto in old(productos) && etiqueta !in old(etiquetas) ==> r == Failed(BadRef)
      ensures r.Failed? ==> unchanged(this)
      ensures r.Done? <==> producto in old(productos) && etiqueta in old(etiquetas)
      ensures r.Done? ==> EtiquetasDe(enlaces, producto) == EtiquetasDe(old(enlaces), producto) + {etiqueta}
      ensures r.Done? && (producto, etiqueta) in old(enlaces) ==> enlaces == old(enlaces)
      ensures r.Done? ==>
        && producto in old(productos) && etiqueta in old(etiquetas)
        && enlaces == old(enlaces) + {(producto, etiqueta)}
        && categorias == old(categorias) && productos == old(productos)
        && etiquetas == old(etiquetas) && detalles == old(detalles)
        && nextCategoria == old(nextCategoria) && nextProducto == old(nextProducto)
        && nextEtiqueta == old(nextEtiqueta) && nextDetalle == old(nextDetalle)
    {
      if producto !in productos {
        return Failed(NotFound);
      }
      if etiqueta !in etiquetas {
        return Failed(BadRef);
      }
      enlaces := enlaces + {(producto, etiqueta)};
      r := Done;
    }

    /** `producto.etiquetas.remove(etiqueta)`: removing an absent pair changes nothing. */
    method RemoveEtiqueta(producto: nat, etiqueta: nat) returns (r: Outcome)
      requires Valid()
      modifies this
      ensures Valid()
      ensures producto !in old(productos) ==> r == Failed(NotFound) && unchanged(this)
      ensures producto in old(productos) ==>
        EtiquetasDe(enlaces, producto) == EtiquetasDe(old(enlaces), producto) - {etiqueta}
      ensures producto in old(productos) ==>
        && r == Done
        && enlaces == old(enlaces) - {(producto, etiqueta)}
        && categorias == old(categorias) && productos == old(productos)
        && etiquetas == old(etiquetas) && detalles == old(detalles)
        && nextCategoria == old(nextCategoria) && nextProducto == old(nextProducto)
        && nextEtiqueta == old(nextEtiqueta) && nextDetalle == old(nextDetalle)
    {
      if producto !in productos {
        return Failed(NotFound);
      }
      enlaces := enlaces - {(producto, etiqueta)};
      r := Done;
    }

    // ----- DetalleProducto

    method CreateDetalle(producto: nat, dimensiones: string, peso: int, material: string) returns (r: Result<nat>)
      requires Valid()
      modifies this
      ensures Valid()
      ensures !DetalleFits(dimensiones, peso, material) ==> r == Err(Invalid)
      ensures DetalleFits(dimensiones, peso, material) && producto !in old(productos) ==> r == Err(BadRef)
      ensures (DetalleFits(dimensiones, peso, material) && producto in old(productos)
               && DetalleTaken(old(detalles), producto, None)) ==> r == Err(Duplicate)
      ensures r.Err? ==> unchanged(this)
      ensures r.Ok? <==> (DetalleFits(dimensiones, peso, material) && producto in old(productos)
               && !DetalleTaken(old(detalles), producto, None))
      ensures r.Ok? ==>
        && DetalleFits(dimensiones, peso, material) && producto in old(productos)
        && !DetalleTaken(old(detalles), producto, None)
        && r.value == old(nextDetalle) && r.value !in old(detalles)
        && detalles == old(detalles)[r.value := Detalle(producto, dimensiones, peso, material)]
        && nextDetalle == old(nextDetalle) + 1
        && categorias == old(categorias) && productos == old(productos)
        && etiquetas == old(etiquetas) && enlaces == old(enlaces)
        && nextCategoria == old(nextCategoria) && nextProducto == old(nextProducto)
        && nextEtiqueta == old(nextEtiqueta)
    {
      if !DetalleFits(dimensiones, peso, material) {
        return Err(Invalid);
      }
      if producto !in productos {
        return Err(BadRef);
      }
      if DetalleTaken(detalles, producto, None) {
        return Err(Duplicate);
      }
      r := Ok(nextDetalle);
      PutDetalle(nextDetalle, Detalle(producto, dimensiones, peso, material), nextDetalle + 1);
    }

    /** Stores `d` under id `k` and moves the detail counter to `next`; the
        caller has checked the fields, the product and the one-to-one link. */
    method PutDetalle(k: nat, d: Detalle, next: nat)
      requires Valid()
      requires 0 < k < next && nextDetalle <= next
      requires DetalleFits(d.dimensiones, d.peso, d.material) && d.producto in productos
      requires !DetalleTaken(detalles, d.producto, Some(k))
      modifies this
      ensures Valid()
      ensures detalles == old(detalles)[k := d] && nextDetalle == next
      ensures categorias == old(categorias) && productos == old(productos)
      ensures etiquetas == old(etiquetas) && enlaces == old(enlaces)
      ensures nextCategoria == old(nextCategoria) && nextProducto == old(nextProducto)
      ensures nextEtiqueta == old(nextEtiqueta)
    {
      DetallesValidSet(detalles, productos.Keys, nextDetalle, k, d, next);
      detalles := detalles[k := d];
      nextDetalle := next;
    }

    method UpdateDetalle(id: nat, producto: nat, dimensiones: string, peso: int, material: string)
      returns (r: Outcome)
      requires Valid()
      modifies this
      ensures Valid()
      ensures id !in old(detalles) ==> r == Failed(NotFound)
      ensures id in old(detalles) && !DetalleFits(dimensiones, peso, material) ==> r == Failed(Invalid)
      ensures (id in old(detalles) && DetalleFits(dimensiones, peso, material)
               && producto !in old(productos)) ==> r == Failed(BadRef)
      ensures (id in old(detalles) && DetalleFits(dimensiones, peso, material) && producto in old(productos)
               && DetalleTaken(old(detalles), producto, Some(id))) ==> r == Failed(Duplicate)
      ensures r.Failed? ==> unchanged(this)
      ensures r.Done? <==> (id in old(detalles) && DetalleFits(dimensiones, peso, material) && producto in old(productos)
               && !DetalleTaken(old(detalles), producto, Some(id)))
      ensures r.Done? ==>
        && id in old(detalles) && DetalleFits(dimensiones, peso, material) && producto in old(productos)
        && !DetalleTaken(old(detalles), producto, Some(id))
        && detalles == old(detalles)[id := Detalle(producto, dimensiones, peso, material)]
        && categorias == old(categorias) && productos == old(productos)
        && etiquetas == old(etiquetas) && enlaces == old(enlaces)
        && nextCategoria == old(nextCategoria) && nextProducto == old(nextProducto)
        && nextEtiqueta == old(nextEtiqueta) && nextDetalle == old(nextDetalle)
    {
      if id !in detalles {
        return Failed(NotFound);
      }
      if !DetalleFits(dimensiones, peso, material) {
        return Failed(Invalid);
      }
      if producto !in productos {
        return Failed(BadRef);
      }
      if DetalleTaken(detalles, producto, Some(id)) {
        return Failed(Duplicate);
      }
      PutDetalle(id, Detalle(producto, dimensiones, peso, material), nextDetalle);
      r := Done;
    }

    method DeleteDetalle(id: nat) returns (r: Outcome)
      requires Valid()
      modifies this
      ensures Valid()
      ensures id !in old(detalles) ==> r == Failed(NotFound) && unchanged(this)
      ensures id in old(detalles) ==>
        && r == Done
        && detalles == old(detalles) - {id}
        && categorias == old(categorias) && productos == old(productos)
        && etiquetas == old(etiquetas) && enlaces == old(enlaces)
        && nextCategoria == old(nextCategoria) && nextProducto == old(nextProducto)
        && nextEtiqueta == old(nextEtiqueta) && nextDetalle == old(nextDetalle)
    {
      if id !in detalles {
        return Failed(NotFound);
      }
      detalles := detalles - {id};
      r := Done;
    }

    /** `str(detalle)` for a stored detail. */
    function DetalleDisplay(id: nat): (s: string)
      reads this
      requires Valid() && id in detalles
      ensures NombreDeDetalleStr(s) == Some(productos[detalles[id].producto].nombre)
    {
      DetalleStr(productos[detalles[id].producto])
    }
  }
}
