/**
 * The records `parseMenu` builds while it reads the text: a category per
 * section line, its options, their dishes and the dishes' ingredients.
 */
module MenuTypes {

  /** `{ name, qty, unit }`; `qty` and `unit` may be empty. */
  datatype Ingredient = Ingredient(name: string, qty: string, unit: string)

  /** `{ name, ingredients }` */
  datatype Dish = Dish(name: string, ingredients: seq<Ingredient>)

  /** `{ title, days, dishes }`: an option that fills `days` cells of its moment's row. */
  datatype MenuOption = MenuOption(title: string, days: nat, dishes: seq<Dish>)

  /** `{ name, momentoKey, options }`: one section of the text. */
  datatype Category = Category(name: string, momentoKey: string, options: seq<MenuOption>)
}
