/** The category manager (src/components/GestionCategorias.tsx): adding a
    category, renaming one in place through a two-click edit mode, and
    deleting one, all by position in the list the parent owns. */
module GestionCategorias {
  import opened Js
  import opened Lists

  datatype Rechazo = Vacia | Existe

  /** `handleSubmit`'s checks: a blank name, then a name already listed
      (compared exactly, untrimmed and case-sensitively). */
  function ValidarNueva(categorias: seq<string>, nueva: string): (r: Option<Rechazo>)
    ensures r == Some(Vacia) <==> IsBlank(nueva)
    ensures r == Some(Existe) <==> !IsBlank(nueva) && nueva in categorias
    ensures r == None <==> !IsBlank(nueva) && nueva !in categorias
  {
    TrimEmptyIffBlank(nueva);
    if Trim(nueva) == "" then Some(Vacia)
    else if nueva in categorias then Some(Existe)
    else None
  }

  /** The commit checks of `handleEditar`: a blank draft, then a draft listed
      somewhere while differing from the current entry at `index`. */
  function ValidarEdicion(categorias: seq<string>, index: nat, editada: string): (r: Option<Rechazo>)
    requires index < |categorias|
    ensures r == Some(Vacia) <==> IsBlank(editada)
    ensures r == Some(Existe) <==>
      !IsBlank(editada) && editada in categorias && editada != categorias[index]
    ensures r == None ==> forall j :: 0 <= j < |categorias| && j != index && categorias[j] != categorias[index]
                                     ==> categorias[j] != editada
  {
    TrimEmptyIffBlank(editada);
    if Trim(editada) == "" then Some(Vacia)
    else if editada in categorias && editada != categorias[index] then Some(Existe)
    else None
  }

  /** An accepted addition keeps a duplicate-free list duplicate-free once
      the parent appends it. */
  lemma AgregarConservaUnicidad(categorias: seq<string>, nueva: string)
    requires Distinct(categorias) && ValidarNueva(categorias, nueva) == None
    ensures Distinct(categorias + [nueva])
  {
    AppendNewKeepsDistinct(categorias, nueva);
  }

  /** An accepted rename keeps a duplicate-free list duplicate-free once the
      parent overwrites position `index`: keeping the current name is
      allowed, taking another entry's name is not. */
  lemma EditarConservaUnicidad(categorias: seq<string>, index: nat, editada: string)
    requires index < |categorias| && Distinct(categorias)
    requires ValidarEdicion(categorias, index, editada) == None
    ensures Distinct(categorias[index := editada])
  {
    forall j | 0 <= j < |categorias| && j != index ensures categorias[j] != editada {
      assert categorias[j] != categorias[index];
    }
    OverwriteKeepsDistinct(categorias, index, editada);
  }

  /** What a click on an entry's edit button did. */
  datatype Edicion = Iniciada | Confirmada(index: nat, nombre: string) | Rechazada(motivo: Rechazo)

  class Component {
    var nuevaCategoria: string
    var editando: Option<nat>
    var categoriaEditada: string

    constructor ()
      ensures nuevaCategoria == "" && editando == None && categoriaEditada == ""
    {
      nuevaCategoria := "";
      editando := None;
      categoriaEditada := "";
    }

    /** `handleSubmit`: on acceptance `onAgregar` gets the untrimmed text (the
        `Ok` value) and the draft is cleared; on refusal nothing changes. */
    method HandleSubmit(categorias: seq<string>) returns (r: Result<string, Rechazo>)
      modifies this
      ensures ValidarNueva(categorias, old(nuevaCategoria)) == None ==>
        r == Ok(old(nuevaCategoria)) && nuevaCategoria == ""
      ensures ValidarNueva(categorias, old(nuevaCategoria)).Some? ==>
        r == Err(ValidarNueva(categorias, old(nuevaCategoria)).value) && nuevaCategoria == old(nuevaCategoria)
      ensures editando == old(editando) && categoriaEditada == old(categoriaEditada)
    {
      var v := ValidarNueva(categorias, nuevaCategoria);
      if v.Some? {
        return Err(v.value);
      }
      r := Ok(nuevaCategoria);
      nuevaCategoria := "";
    }

    /** `handleEditar(index)`: a click on an entry not being edited enters
        edit mode with the draft set to that entry and commits nothing; a
        click on the entry being edited commits the draft when it passes the
        checks (`onEditar(index, draft)`, edit mode off, draft "") and
        otherwise changes nothing. */
    method HandleEditar(categorias: seq<string>, index: nat) returns (r: Edicion)
      requires index < |categorias|
      modifies this
      ensures nuevaCategoria == old(nuevaCategoria)
      ensures old(editando) != Some(index) ==>
        r == Iniciada && editando == Some(index) && categoriaEditada == categorias[index]
      ensures old(editando) == Some(index) && ValidarEdicion(categorias, index, old(categoriaEditada)) == None ==>
        r == Confirmada(index, old(categoriaEditada)) && editando == None && categoriaEditada == ""
      ensures old(editando) == Some(index) && ValidarEdicion(categorias, index, old(categoriaEditada)).Some? ==>
        r == Rechazada(ValidarEdicion(categorias, index, old(categoriaEditada)).value)
        && editando == old(editando) && categoriaEditada == old(categoriaEditada)
    {
      if editando == Some(index) {
        var v := ValidarEdicion(categorias, index, categoriaEditada);
        if v.Some? {
          return Rechazada(v.value);
        }
        r := Confirmada(index, categoriaEditada);
        editando := None;
        categoriaEditada := "";
      } else {
        editando := Some(index);
        categoriaEditada := categorias[index];
        r := Iniciada;
      }
    }
  }
}
