/**
 * The two message tables of common/strings.py. The configured table
 * (`config.locale`) is one of them; which one is a configuration choice.
 */
module Strings {
  datatype Lang = RO | ENG

  datatype Key =
    | SCAN | PROC | STOP | REQ_TO | SRV_UNREACH | SRV_INT
    | INVALID | CANCELED | PROJ_UA | NO_PROJ | PROJ_A | BACK

  /** The text a table gives a key. */
  function Text(lang: Lang, key: Key): (t: string)
    ensures t != ""
  {
    match lang
    case RO =>
      (match key
       case SCAN => "Scanati cardul"
       case PROC => "Procesare..."
       case STOP => "Opriti proiectul?"
       case REQ_TO => "Raspuns intarziat"
       case SRV_UNREACH => "Serverul nu poate\nfi accesat"
       case SRV_INT => "Eroare la server"
       case INVALID => "Cartela invalida"
       case CANCELED => "Anulat"
       case PROJ_UA => "Proiect terminat"
       case NO_PROJ => "Nu aveti proiecte"
       case PROJ_A => "Proiect atribuit"
       case BACK => "Inapoi")
    case ENG =>
      (match key
       case SCAN => "Scan card"
       case PROC => "Processing..."
       case STOP => "Stop project?"
       case REQ_TO => "Request timed out"
       case SRV_UNREACH => "Server unreachable"
       case SRV_INT => "Internal\nserver error"
       case INVALID => "Invalid card"
       case CANCELED => "Anulat"
       case PROJ_UA => "Project unassigned"
       case NO_PROJ => "No projects"
       case PROJ_A => "Project assigned"
       case BACK => "Back")
  }
}
