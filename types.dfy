/** The enumerations of types.ts that the application uses. */
module Types {

  /** How the wanted outfit is described: by free text, or by an uploaded garment photo. */
  datatype TryOnMode = Text | Item
}
