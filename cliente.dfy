/**
 * The client name used in the report: the label built from the sidebar, and
 * the shortened form printed in the PDF title.
 */
module Cliente {

  /** The sidebar option that asks for a new client's name and tax id (RFC). */
  const OpcionNuevo: string := "NUEVO CLIENTE..."

  /** The label of a new client whose name was left empty. */
  const SinNombre: string := "SIN NOMBRE"

  /** The longest client name the title shows before cutting it. */
  const MaxTitulo: nat := 40

  /** `cliente`: the chosen option, or for a new client "Name (RFC)", the name
      alone when there is no RFC, or "SIN NOMBRE" when there is no name. */
  function EtiquetaCliente(opcion: string, nombre: string, rfc: string): string {
    if opcion == OpcionNuevo then
      if nombre != "" then
        if rfc != "" then nombre + " (" + rfc + ")" else nombre
      else SinNombre
    else opcion
  }

  /** `titulo_cliente`: names longer than 40 characters are cut to 40 and
      marked with "...". */
  function TituloCliente(cliente: string): (titulo: string)
    ensures |titulo| <= MaxTitulo + 3
    ensures |cliente| <= MaxTitulo <==> titulo == cliente && |titulo| <= MaxTitulo
    ensures |cliente| > MaxTitulo ==> |titulo| == MaxTitulo + 3 && titulo[..MaxTitulo] == cliente[..MaxTitulo] && titulo[MaxTitulo..] == "..."
  {
    if |cliente| > MaxTitulo then cliente[..MaxTitulo] + "..." else cliente
  }

  /** An existing client is labelled by the option itself; a new client
      without a name is labelled "SIN NOMBRE"; so the label is never empty
      when the chosen option is not. */
  lemma EtiquetaNoVacia(opcion: string, nombre: string, rfc: string)
    ensures opcion != OpcionNuevo ==> EtiquetaCliente(opcion, nombre, rfc) == opcion
    ensures opcion == OpcionNuevo && nombre == "" ==> EtiquetaCliente(opcion, nombre, rfc) == SinNombre
    ensures opcion != "" ==> EtiquetaCliente(opcion, nombre, rfc) != ""
  {
  }

  /** A new client's label starts with the name entered, and the RFC can be
      read back from between " (" and the closing ")". */
  lemma EtiquetaConservaDatos(nombre: string, rfc: string)
    requires nombre != ""
    ensures var e := EtiquetaCliente(OpcionNuevo, nombre, rfc);
            |e| >= |nombre| && e[..|nombre|] == nombre
    ensures rfc != "" ==>
              var e := EtiquetaCliente(OpcionNuevo, nombre, rfc);
              |e| == |nombre| + |rfc| + 3 && e[|nombre|..|nombre| + 2] == " ("
              && e[|nombre| + 2..|e| - 1] == rfc && e[|e| - 1] == ')'
    ensures rfc == "" ==> EtiquetaCliente(OpcionNuevo, nombre, rfc) == nombre
  {
    if rfc != "" {
      var e := EtiquetaCliente(OpcionNuevo, nombre, rfc);
      assert e == nombre + " (" + rfc + ")";
      assert e[|nombre| + 2..|e| - 1] == rfc;
    }
  }
}
