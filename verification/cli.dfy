/** The values the command line accepts for the `scan` subcommand
    (`pdf`/`jpeg`, `gray`/`color`, `auto`/`adf`/`glass`); the argument parser
    itself is not part of this model. */
module Cli {

  datatype Format = Pdf | Jpeg

  datatype ColorSpace = Gray | Color

  /** The user's source preference. */
  datatype Source = Auto | Adf | Glass
}
