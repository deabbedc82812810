/** A constructed language, known by its Japanese name (src/lang.rs). Its page
    URL comes from a lookup table that is not part of this model; renderers
    take it as a function parameter. */
module Language {

  datatype Lang = Lang(name: string)

  /** `Lang::ja`: the display name is the name itself. */
  function Ja(lang: Lang): string {
    lang.name
  }
}
